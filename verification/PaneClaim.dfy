/** Who holds a chat's session when the agent pane may have resumed it: the claim, and the probes that move it. */
module PaneClaim {

  /** The pane's claim: none, a resume was typed, or Claude was seen there. */
  datatype Pane = Free | Owns | Seen

  /** What one look at the pane's foreground found. */
  datatype Probe = Claude | Shell | Other | Unknown

  const PANE_START_GRACE_MS := 60000

  /** `nextPaneClaim`; `elapsed` is how long `Owns` has stood. */
  function NextPaneClaim(pane: Pane, probe: Probe, elapsed: nat): Pane {
    if probe.Claude? then Seen
    else if probe.Shell? && pane.Seen? then Free
    else if (probe.Shell? || probe.Other?) && pane.Owns? && elapsed >= PANE_START_GRACE_MS then Free
    else pane
  }

  datatype Look = Look(probe: Probe, at: nat)

  /** The claim after each look in turn, from a resume typed at `typed`. A claim once gone is not looked at again here. */
  function ClaimAfter(typed: nat, looks: seq<Look>): Pane
  {
    if looks == [] then Owns
    else
      var before, last := ClaimAfter(typed, looks[..|looks| - 1]), looks[|looks| - 1];
      if before.Free? then Free
      else NextPaneClaim(before, last.probe, if last.at >= typed then last.at - typed else 0)
  }

  ghost predicate ClaudeWasSeen(looks: seq<Look>, before: nat)
    requires before <= |looks|
  {
    exists i :: 0 <= i < before && looks[i].probe.Claude?
  }

  /** A look that shows the terminal is the person's again. */
  ghost predicate Frees(typed: nat, looks: seq<Look>, k: nat)
    requires k < |looks|
  {
    if ClaudeWasSeen(looks, k) then looks[k].probe.Shell?
    else (looks[k].probe.Shell? || looks[k].probe.Other?) && looks[k].at >= typed + PANE_START_GRACE_MS
  }

  /**
   * The claim of a typed resume goes exactly when a look shows Claude gone: a shell after Claude was
   * seen, or, Claude never seen, a shell or another program once the start grace is over. A failed look never frees it.
   */
  lemma {:induction false} ClaimGoesIffClaudeIsGone(typed: nat, looks: seq<Look>)
    ensures ClaimAfter(typed, looks).Free? <==> exists k :: 0 <= k < |looks| && Frees(typed, looks, k)
    ensures !ClaimAfter(typed, looks).Free? ==> (ClaimAfter(typed, looks).Seen? <==> ClaudeWasSeen(looks, |looks|))
  {
    if looks != [] {
      var n := |looks| - 1;
      var before := looks[..n];
      ClaimGoesIffClaudeIsGone(typed, before);
      forall k | 0 <= k < n
        ensures Frees(typed, looks, k) == Frees(typed, before, k)
      {
        assert ClaudeWasSeen(looks, k) == ClaudeWasSeen(before, k) by {
          assert forall i :: 0 <= i < k ==> looks[i] == before[i];
        }
      }
      assert ClaudeWasSeen(looks, n) == ClaudeWasSeen(before, n) by {
        assert forall i :: 0 <= i < n ==> looks[i] == before[i];
      }
      if ClaimAfter(typed, before).Free? {
        var k :| 0 <= k < n && Frees(typed, before, k);
        assert Frees(typed, looks, k);
      } else {
        assert forall k :: 0 <= k < n ==> !Frees(typed, looks, k);
        assert ClaimAfter(typed, looks).Free? <==> Frees(typed, looks, n);
        assert ClaudeWasSeen(looks, |looks|) <==> ClaudeWasSeen(looks, n) || looks[n].probe.Claude?;
      }
    }
  }
}
