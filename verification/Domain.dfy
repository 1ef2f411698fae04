/** Names, rows and results shared by every module.

    Identifiers, addresses, repository names and tokens are compared only for
    equality, so each is a numbered name of its own type. */
module Domain {
  datatype Option<+T> = None | Some(value: T)

  datatype SagaId = SagaId(n: nat)
  datatype SubId = SubId(n: nat)
  datatype RepoId = RepoId(n: nat)
  datatype Address = Address(n: nat)
  datatype RepoName = RepoName(n: nat)
  datatype Token = Token(n: nat)

  datatype SagaState = Pending | Completed | Compensated | TimedOut

  /** What the notifier is asked to send. The confirm URL is the configured base
      URL, the same for both paths, followed by the token. */
  datatype Payload = Payload(to: Address, repo: RepoName, token: Token)

  /** How one call to a database, the broker or the mail provider ends: with
      success, with an error and no effect, or with an error after the effect. */
  datatype Fault = Works | Fails | FailsAfterEffect

  /** What a store method returns: nil, the not-found error, or another error. */
  datatype Reply = Ok | NotFound | Error

  lemma {:induction false} SubsetSize<T>(a: set<T>, b: set<T>)
    requires a <= b
    ensures |a| <= |b|
  {
    if a != {} {
      var x :| x in a;
      SubsetSize(a - {x}, b - {x});
    }
  }

  /** A name beyond any finitely many. */
  lemma {:induction false} Above(ns: set<nat>) returns (n: nat)
    ensures forall m :: m in ns ==> m < n
  {
    if ns == {} {
      n := 0;
    } else {
      var m :| m in ns;
      var k := Above(ns - {m});
      n := if k <= m then m + 1 else k;
      forall m' | m' in ns ensures m' < n {
        assert m' != m ==> m' in ns - {m};
      }
    }
  }
}
