/** The sale state a storefront session polls for (App.tsx:63, 68-77, 135).

    Each poll's result arrives as an input: `Some(info)` when the fetch
    produced a truthy value, `None` when it failed or produced nothing. The
    results are applied in the order they arrive, which is all the source
    does. */
module Sale {
  import opened Types

  /** `{ isActive, discount }`; the source places no bound on `discount` and
      does not tie it to `isActive`. */
  datatype SaleInfo = SaleInfo(isActive: bool, discount: int)

  /** The sale state every session starts from: no sale. */
  const Initial: SaleInfo := SaleInfo(false, 0)

  /** One poll: a fetched value replaces the sale state wholesale; a failed
      or empty fetch keeps the state the session already shows. */
  function ApplyPoll(current: SaleInfo, fetched: Option<SaleInfo>): SaleInfo
  {
    match fetched
    case Some(info) => info
    case None => current
  }

  /** Whether the sale banner is rendered for this state. */
  function BannerVisible(s: SaleInfo): bool
  {
    s.isActive
  }

  /** The sale state after a run of poll results, in arrival order. */
  function Replay(start: SaleInfo, polls: seq<Option<SaleInfo>>): SaleInfo
  {
    if polls == [] then start
    else ApplyPoll(Replay(start, polls[..|polls| - 1]), polls[|polls| - 1])
  }

  /** Last successful fetch wins: after a run of polls the state is the
      value of the last poll that produced one, or the starting state when
      none did. */
  lemma {:induction false} ReplayKeepsLastFetched(start: SaleInfo, polls: seq<Option<SaleInfo>>)
    ensures (forall k :: 0 <= k < |polls| ==> polls[k].None?) ==> Replay(start, polls) == start
    ensures forall k :: 0 <= k < |polls| && polls[k].Some? && (forall j :: k < j < |polls| ==> polls[j].None?) ==>
      Replay(start, polls) == polls[k].value
  {
    if polls != [] {
      var n := |polls|;
      var prefix := polls[..n - 1];
      ReplayKeepsLastFetched(start, prefix);
      forall k | 0 <= k < n && polls[k].Some? && (forall j :: k < j < n ==> polls[j].None?)
        ensures Replay(start, polls) == polls[k].value
      {
        if k < n - 1 {
          assert prefix[k] == polls[k];
          forall j | k < j < n - 1 ensures prefix[j].None? {
            assert prefix[j] == polls[j];
          }
        }
      }
      if forall k :: 0 <= k < n ==> polls[k].None? {
        forall k | 0 <= k < n - 1 ensures prefix[k].None? {
          assert prefix[k] == polls[k];
        }
      }
    }
  }

  /** A session shows no banner until some poll succeeds; afterwards it shows
      the banner exactly when the last successfully fetched state is active. */
  lemma BannerAfterPolls(polls: seq<Option<SaleInfo>>)
    ensures (forall k :: 0 <= k < |polls| ==> polls[k].None?) ==> !BannerVisible(Replay(Initial, polls))
    ensures forall k :: 0 <= k < |polls| && polls[k].Some? && (forall j :: k < j < |polls| ==> polls[j].None?) ==>
      (BannerVisible(Replay(Initial, polls)) <==> polls[k].value.isActive)
  {
    ReplayKeepsLastFetched(Initial, polls);
  }
}
