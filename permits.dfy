/**
  * Per-token admission permits, as the limited-access wrappers keep them: a
  * semaphore per token is created with the configured number of permits on
  * the token's first acquire, an acquire takes one permit (waiting while
  * none is left) and a release returns one.
  */
module Permits {
  import opened Common

  const NOT_INITIALIZED := "Permits wasn't initialized for token, but adapter is released."

  /** The permits `token` has left: its semaphore's count, or `limit` before the semaphore exists. */
  function Available(permits: map<Token, int>, token: Token, limit: int): int {
    if token in permits then permits[token] else limit
  }

  /** What happens to one token's semaphore. */
  datatype PermitOp = Take | Give

  /** The count of a semaphore in state `s`, where `None` means it has not been created yet. */
  function Current(s: Option<int>, limit: int): int {
    if s.Some? then s.value else limit
  }

  /**
    * One token's semaphore after `ops`: a take creates it when absent and takes
    * a permit, a give on an absent semaphore fails and leaves it absent.
    */
  function After(ops: seq<PermitOp>, limit: int): Option<int> {
    if ops == [] then None
    else
      var s := After(ops[..|ops| - 1], limit);
      match ops[|ops| - 1]
      case Take => Some(Current(s, limit) - 1)
      case Give => if s.None? then None else Some(s.value + 1)
  }

  /** Every take found a permit: a take that would wait has not completed. */
  predicate Admitted(ops: seq<PermitOp>, limit: int) {
    forall k :: 0 <= k < |ops| && ops[k] == Take ==> Current(After(ops[..k], limit), limit) > 0
  }

  function Count(ops: seq<PermitOp>, op: PermitOp): nat {
    if ops == [] then 0
    else Count(ops[..|ops| - 1], op) + (if ops[|ops| - 1] == op then 1 else 0)
  }

  /** Every give returns a permit an earlier take obtained. */
  predicate Matched(ops: seq<PermitOp>) {
    forall k :: 0 <= k <= |ops| ==> Count(ops[..k], Give) <= Count(ops[..k], Take)
  }

  /** With matched gives, the count is the limit minus the permits currently held. */
  lemma {:induction false} PermitAccounting(ops: seq<PermitOp>, limit: int)
    requires Matched(ops)
    ensures Current(After(ops, limit), limit) == limit - (Count(ops, Take) - Count(ops, Give))
    ensures Count(ops, Take) > 0 ==> After(ops, limit).Some?
  {
    if ops != [] {
      var init := ops[..|ops| - 1];
      assert Matched(init) by {
        forall k | 0 <= k <= |init|
          ensures Count(init[..k], Give) <= Count(init[..k], Take)
        {
          assert init[..k] == ops[..k];
        }
      }
      PermitAccounting(init, limit);
      assert ops[..|ops|] == ops;
    }
  }

  /** Admitted, matched traces never hold more permits than the configured limit. */
  lemma {:induction false} InFlightNeverExceedsLimit(ops: seq<PermitOp>, limit: int)
    requires Admitted(ops, limit) && Matched(ops) && limit >= 0
    ensures Count(ops, Take) - Count(ops, Give) <= limit
  {
    if ops != [] {
      var init := ops[..|ops| - 1];
      assert Matched(init) by {
        forall k | 0 <= k <= |init|
          ensures Count(init[..k], Give) <= Count(init[..k], Take)
        {
          assert init[..k] == ops[..k];
        }
      }
      assert Admitted(init, limit) by {
        forall k | 0 <= k < |init| && init[k] == Take
          ensures Current(After(init[..k], limit), limit) > 0
        {
          assert init[..k] == ops[..k];
        }
      }
      InFlightNeverExceedsLimit(init, limit);
      if ops[|ops| - 1] == Take {
        PermitAccounting(init, limit);
      }
    }
  }

  /** A limit of zero or less admits no acquire at all: the first one waits forever. */
  lemma NonPositiveLimitAdmitsNothing(ops: seq<PermitOp>, limit: int)
    requires Admitted(ops, limit) && Matched(ops) && limit <= 0
    ensures Count(ops, Take) == 0
  {
    if Count(ops, Take) > 0 {
      var k := FirstTake(ops);
      NoTakeNoSemaphore(ops[..k], limit);
      assert false;
    }
  }

  /** The position of the first take in a trace that has one. */
  function FirstTake(ops: seq<PermitOp>): (k: nat)
    requires Count(ops, Take) > 0
    ensures k < |ops| && ops[k] == Take && Count(ops[..k], Take) == 0
  {
    var init := ops[..|ops| - 1];
    if Count(init, Take) > 0 then
      var k := FirstTake(init);
      assert ops[..k] == init[..k];
      k
    else
      assert ops[..|ops| - 1] == init;
      |ops| - 1
  }

  lemma {:induction false} NoTakeNoSemaphore(ops: seq<PermitOp>, limit: int)
    requires Count(ops, Take) == 0
    ensures After(ops, limit).None?
  {
    if ops != [] {
      NoTakeNoSemaphore(ops[..|ops| - 1], limit);
    }
  }

  /**
    * A give that no take of the same request matched raises the ceiling: with a
    * limit of one, a take followed by two gives leaves two permits.
    */
  lemma UnmatchedGiveRaisesCeiling()
    ensures !Matched([Take, Give, Give])
    ensures After([Take, Give, Give], 1) == Some(2)
  {
    var ops := [Take, Give, Give];
    assert ops[..1] == [Take] && [Take][..0] == [];
    assert ops[..2] == [Take, Give] && [Take, Give][..1] == [Take];
    assert After([Take], 1) == Some(0);
    assert After([Take, Give], 1) == Some(1);
    assert ops[..|ops| - 1] == [Take, Give];
    assert Count([Take], Give) == 0 && Count([Take], Take) == 1;
    assert Count([Take, Give], Give) == 1 && Count([Take, Give], Take) == 1;
    assert Count(ops, Give) == 2 && Count(ops, Take) == 1;
    assert ops[..3] == ops;
  }
}
