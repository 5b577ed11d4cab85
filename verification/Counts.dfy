/** The labels of a run by position, and how many of them there are of a kind. */
module Counts {
  import opened Machine

  lemma {:induction false} PrefixValid(cfg: Config, s: State, ls: seq<Label>, k: nat)
    requires ValidRun(cfg, s, ls) && k <= |ls|
    ensures ValidRun(cfg, s, ls[..k])
    decreases |ls|
  {
    hide Enabled, Next;
    if k == |ls| {
      assert ls[..k] == ls;
    } else {
      assert ls[..|ls| - 1][..k] == ls[..k];
      PrefixValid(cfg, s, ls[..|ls| - 1], k);
    }
  }

  /** The state that the label at a position finds. */
  ghost function Before(cfg: Config, s: State, ls: seq<Label>, k: nat): State
    requires ValidRun(cfg, s, ls) && k < |ls|
  {
    PrefixValid(cfg, s, ls, k);
    StateAfter(cfg, s, ls[..k])
  }

  lemma BeforeFront(cfg: Config, s: State, ls: seq<Label>)
    requires ls != [] && ValidRun(cfg, s, ls)
    ensures Before(cfg, s, ls, |ls| - 1) == StateAfter(cfg, s, ls[..|ls| - 1])
    ensures forall k: nat | k < |ls| - 1 :: Before(cfg, s, ls, k) == Before(cfg, s, ls[..|ls| - 1], k)
  {
    hide Enabled, Next;
    forall k: nat | k < |ls| - 1 ensures Before(cfg, s, ls, k) == Before(cfg, s, ls[..|ls| - 1], k) {
      assert ls[..|ls| - 1][..k] == ls[..k];
    }
  }

  /** One more position, which is of the kind or not. */
  lemma OneMorePosition(few: set<nat>, most: set<nat>, n: nat, last: bool)
    requires forall k :: k in few ==> k < n
    requires forall k :: k in most <==> k in few || (k == n && last)
    ensures |most| == |few| + if last then 1 else 0
  {
    assert most == few + if last then {n} else {};
  }
}
