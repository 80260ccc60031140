/** Reward route lists.  Both routers keep a fixed array of (key, rewards) slots whose free
    slots carry the default key.  The list here is the array's used part; `Used` recovers it. */
module RouteLists {
  import opened Base
  import opened Sums

  datatype Route = Route(key: Pubkey, rewards: nat)

  const EMPTY_ROUTE := Route(DEFAULT_KEY, 0)

  function RewardsIn(r: Route): nat { r.rewards }

  /** Everything allocated in the list. */
  function Allocated(rs: seq<Route>): nat { SumBy(rs, RewardsIn) }

  /** The first position that carries `key`, or the length when none does. */
  function IndexOf(rs: seq<Route>, key: Pubkey): (i: nat)
    ensures i <= |rs|
    ensures forall j :: 0 <= j < i ==> rs[j].key != key
    ensures i < |rs| ==> rs[i].key == key
  {
    if |rs| == 0 then 0
    else var i := IndexOf(rs[..|rs| - 1], key);
      if i < |rs| - 1 || rs[i].key == key then i else |rs|
  }

  /** What the list owes to `key`. */
  function RewardFor(rs: seq<Route>, key: Pubkey): nat {
    var i := IndexOf(rs, key);
    if i < |rs| then rs[i].rewards else 0
  }

  ghost predicate WellFormed(rs: seq<Route>) {
    && (forall i, j :: 0 <= i < j < |rs| ==> rs[i].key != rs[j].key)
    && (forall i :: 0 <= i < |rs| ==> rs[i].key != DEFAULT_KEY)
  }

  ghost predicate KeysWithin(rs: seq<Route>, universe: set<Pubkey>) {
    forall i :: 0 <= i < |rs| ==> rs[i].key in universe
  }

  /** Crediting a key: its route grows, or a new route is opened while there is room. */
  function Credit(rs: seq<Route>, capacity: nat, key: Pubkey, amount: nat): Result<seq<Route>> {
    var i := IndexOf(rs, key);
    if amount == 0 then Ok(rs)
    else if i < |rs| then
      var total :- CheckedAdd(rs[i].rewards, amount, U64_MAX);
      Ok(rs[i := Route(key, total)])
    else if |rs| < capacity then Ok(rs + [Route(key, amount)])
    else Err(RewardListFull)
  }

  /** Paying a key out: its route stays in the list with nothing left on it. */
  function Drain(rs: seq<Route>, key: Pubkey): Result<seq<Route>> {
    var i := IndexOf(rs, key);
    if i < |rs| then Ok(rs[i := Route(key, 0)]) else Err(RewardNotFound)
  }

  lemma IndexOfUnique(rs: seq<Route>, i: nat)
    requires WellFormed(rs) && i < |rs|
    ensures IndexOf(rs, rs[i].key) == i
  {
  }

  /** A credit moves exactly `amount` onto exactly one key and keeps the list well formed.
      With every key drawn from at most `capacity` accounts it can only fail by overflow. */
  lemma CreditSound(rs: seq<Route>, capacity: nat, key: Pubkey, amount: nat, universe: set<Pubkey>)
    requires WellFormed(rs) && KeysWithin(rs, universe) && |universe| <= capacity
    requires key in universe && key != DEFAULT_KEY
    requires Allocated(rs) + amount <= U64_MAX
    ensures var r := Credit(rs, capacity, key, amount);
            && r.Ok?
            && WellFormed(r.value) && KeysWithin(r.value, universe)
            && Allocated(r.value) == Allocated(rs) + amount
            && (forall k :: RewardFor(r.value, k) == RewardFor(rs, k) + if k == key then amount else 0)
  {
    var i := IndexOf(rs, key);
    if amount == 0 {
    } else if i < |rs| {
      SumByAtLeast(rs, i, RewardsIn);
      SumByUpdate(rs, i, Route(key, rs[i].rewards + amount), RewardsIn);
      CreditPointwise(rs, rs[i := Route(key, rs[i].rewards + amount)], key, amount);
    } else {
      RoomLeft(rs, key, universe);
      SumByAppend(rs, Route(key, amount), RewardsIn);
      CreditPointwise(rs, rs + [Route(key, amount)], key, amount);
    }
  }

  lemma CreditPointwise(rs: seq<Route>, rs': seq<Route>, key: Pubkey, amount: nat)
    requires WellFormed(rs) && WellFormed(rs')
    requires var i := IndexOf(rs, key);
             if i < |rs| then rs' == rs[i := Route(key, rs[i].rewards + amount)] else rs' == rs + [Route(key, amount)]
    ensures forall k :: RewardFor(rs', k) == RewardFor(rs, k) + if k == key then amount else 0
  {
    forall k
      ensures RewardFor(rs', k) == RewardFor(rs, k) + if k == key then amount else 0
    {
      var i := IndexOf(rs, k);
      if i < |rs| {
        assert rs'[i].key == k;
        IndexOfUnique(rs', i);
      } else if k == key {
        assert rs'[|rs|].key == key;
        IndexOfUnique(rs', |rs|);
      }
    }
  }

  /** A key that has no route yet always finds a free slot. */
  lemma RoomLeft(rs: seq<Route>, key: Pubkey, universe: set<Pubkey>)
    requires WellFormed(rs) && KeysWithin(rs, universe)
    requires key in universe && IndexOf(rs, key) == |rs|
    ensures |rs| < |universe|
  {
    var keys := seq(|rs|, i requires 0 <= i < |rs| => rs[i].key) + [key];
    assert Distinct(keys);
    DistinctFits(keys, universe);
  }

  /** Paying out empties exactly one route. */
  lemma DrainSound(rs: seq<Route>, key: Pubkey, universe: set<Pubkey>)
    requires WellFormed(rs) && KeysWithin(rs, universe)
    ensures var r := Drain(rs, key);
            && (r.Ok? <==> exists i :: 0 <= i < |rs| && rs[i].key == key)
            && (r.Ok? ==>
                  && WellFormed(r.value) && KeysWithin(r.value, universe)
                  && Allocated(r.value) + RewardFor(rs, key) == Allocated(rs)
                  && (forall k :: RewardFor(r.value, k) == if k == key then 0 else RewardFor(rs, k)))
  {
    var i := IndexOf(rs, key);
    if i < |rs| {
      var rs' := rs[i := Route(key, 0)];
      SumByUpdate(rs, i, Route(key, 0), RewardsIn);
      forall k
        ensures RewardFor(rs', k) == if k == key then 0 else RewardFor(rs, k)
      {
        var j := IndexOf(rs, k);
        if j < |rs| {
          assert rs'[j].key == k;
          IndexOfUnique(rs', j);
        }
      }
    }
  }

  /** Whatever the list, an accepted credit adds the amount to the total and an accepted payout
      takes out what it found. */
  lemma TotalsMove(rs: seq<Route>, capacity: nat, key: Pubkey, amount: nat)
    ensures var r := Credit(rs, capacity, key, amount);
            r.Ok? ==> Allocated(r.value) == Allocated(rs) + amount
    ensures var r := Drain(rs, key);
            r.Ok? ==> Allocated(r.value) + RewardFor(rs, key) == Allocated(rs)
  {
    var i := IndexOf(rs, key);
    if i < |rs| {
      SumByUpdate(rs, i, Route(key, rs[i].rewards + amount), RewardsIn);
      SumByUpdate(rs, i, Route(key, 0), RewardsIn);
    } else {
      SumByAppend(rs, Route(key, amount), RewardsIn);
    }
  }

  // ---------------------------------------------------------------- slot arrays

  /** The length of the used part of a slot array: the first free slot. */
  function UsedLength(slots: seq<Route>): nat {
    IndexOf(slots, DEFAULT_KEY)
  }

  /** The routes a slot array holds. */
  function Used(slots: seq<Route>): seq<Route> {
    slots[..UsedLength(slots)]
  }

  /** A slot array is packed when nothing follows its first free slot. */
  ghost predicate Packed(slots: seq<Route>) {
    && (forall i :: UsedLength(slots) <= i < |slots| ==> slots[i] == EMPTY_ROUTE)
    && WellFormed(Used(slots))
  }

  /** Rewriting a used slot, or filling the first free one, keeps the array packed. */
  lemma PackedAfterWrite(slots: seq<Route>, i: nat, r: Route)
    requires Packed(slots) && i <= UsedLength(slots) && i < |slots|
    requires r.key != DEFAULT_KEY && IndexOf(Used(slots), r.key) == i
    ensures Packed(slots[i := r])
    ensures Used(slots[i := r]) == if i < UsedLength(slots) then Used(slots)[i := r] else Used(slots) + [r]
  {
    var n, s := UsedLength(slots), slots[i := r];
    var n' := if i < n then n else n + 1;
    assert forall j :: 0 <= j < n' ==> s[j].key != DEFAULT_KEY;
    assert n' < |s| ==> s[n'].key == DEFAULT_KEY;
    assert UsedLength(s) == n';
  }
}
