/** Reconciliation of a user's new bank transactions into store points,
    earned rewards and a new global points balance. */
module User {
  import opened Wrappers
  import opened ArrayMethods
  import opened Tables

  /** Points credited to the global balance per unit of spend. */
  const POINTS_CONVERSION_RATE: real := 10.0

  function Abs(x: real): (r: real)
    ensures r >= 0.0
    ensures r == x || r == -x
  {
    if x < 0.0 then -x else x
  }

  // ---------------------------------------------------------------------------
  // Lookups (each `find` of user.ts, written once)
  // ---------------------------------------------------------------------------

  /** Index of the first store whose vendor name equals `name` exactly. */
  function VendorIndex(stores: seq<Store>, name: string): (r: Option<nat>)
    ensures r.Some? ==> r.value < |stores| && stores[r.value].vendorName == name
    ensures r.Some? ==> forall j :: 0 <= j < r.value ==> stores[j].vendorName != name
    ensures r.None? ==> forall j :: 0 <= j < |stores| ==> stores[j].vendorName != name
  {
    FindIndex(stores, (s: Store) => s.vendorName == name)
  }

  /** `storeData.find(store => store.vendor_name === name)`. */
  function StoreByVendorName(stores: seq<Store>, name: string): (r: Option<Store>)
    ensures r.Some? ==> r.value in stores && r.value.vendorName == name
    ensures r.Some? ==> exists k :: 0 <= k < |stores| && stores[k] == r.value &&
                                   forall j :: 0 <= j < k ==> stores[j].vendorName != name
    ensures r.None? <==> forall j :: 0 <= j < |stores| ==> stores[j].vendorName != name
  {
    match VendorIndex(stores, name)
    case None => None
    case Some(k) => Some(stores[k])
  }

  /** Index of the first store whose id is `id`. */
  function StoreIndexById(stores: seq<Store>, id: StoreId): (r: Option<nat>)
    ensures r.Some? ==> r.value < |stores| && stores[r.value].id == id
    ensures r.Some? ==> forall j :: 0 <= j < r.value ==> stores[j].id != id
    ensures r.None? ==> forall j :: 0 <= j < |stores| ==> stores[j].id != id
  {
    FindIndex(stores, (s: Store) => s.id == id)
  }

  /** `storeData.find(obj => obj.id === id)`. */
  function StoreById(stores: seq<Store>, id: StoreId): Option<Store>
  {
    match StoreIndexById(stores, id)
    case None => None
    case Some(k) => Some(stores[k])
  }

  /** The store found by id is the first store of `stores` with that id, and none
      is found exactly when no store has it. */
  lemma StoreByIdSpec(stores: seq<Store>, id: StoreId)
    ensures StoreById(stores, id).Some? ==> StoreById(stores, id).value in stores && StoreById(stores, id).value.id == id
    ensures StoreById(stores, id).Some? ==>
              exists k :: 0 <= k < |stores| && stores[k] == StoreById(stores, id).value &&
                          forall j :: 0 <= j < k ==> stores[j].id != id
    ensures StoreById(stores, id).None? <==> forall j :: 0 <= j < |stores| ==> stores[j].id != id
  {
  }

  /** The user's stored balance at a store: that of the first points row for it,
      and 0 when there is none or its balance is null (`?.balance || 0`). */
  function CurrentBalance(points: seq<PointsRow>, id: StoreId): (r: real)
    ensures r != 0.0 ==> exists k :: 0 <= k < |points| && points[k].storeId == id && points[k].balance == Some(r)
  {
    match FindIndex(points, (row: PointsRow) => row.storeId == id)
    case None => 0.0
    case Some(k) => if points[k].balance.Some? then points[k].balance.value else 0.0
  }

  lemma CurrentBalanceSpec(points: seq<PointsRow>, id: StoreId)
    ensures (forall j :: 0 <= j < |points| ==> points[j].storeId != id) ==> CurrentBalance(points, id) == 0.0
    ensures forall k :: (0 <= k < |points| && points[k].storeId == id &&
                         (forall j :: 0 <= j < k ==> points[j].storeId != id)) ==>
                        CurrentBalance(points, id) == (if points[k].balance.Some? then points[k].balance.value else 0.0)
  {
  }

  // ---------------------------------------------------------------------------
  // createTransactionRecords
  // ---------------------------------------------------------------------------

  /** One step of the reduce: append the record of `t` when a store matches it. */
  function Reducer(stores: seq<Store>, userId: string, acc: seq<TransactionRecord>, t: Transaction): (r: seq<TransactionRecord>)
    ensures !Matches(t, stores) ==> r == acc
    ensures Matches(t, stores) ==> |r| == |acc| + 1 && r[..|acc|] == acc && IsRecordOf(r[|acc|], t, stores, userId)
  {
    match StoreByVendorName(stores, t.description)
    case None => acc
    case Some(store) =>
      acc + [TransactionRecord(t.amount, t.postDate, Abs(t.amount) * store.pointsRate, store.id, userId)]
  }

  /** `txs.reduce(reducer, acc)`: a fold from the left. The accumulator is kept
      as a prefix, and at most one record is added per transaction. */
  function Reduce(stores: seq<Store>, userId: string, acc: seq<TransactionRecord>, txs: seq<Transaction>): (r: seq<TransactionRecord>)
    ensures |acc| <= |r| <= |acc| + |txs| && r[..|acc|] == acc
    decreases |txs|
  {
    if txs == [] then acc
    else Reduce(stores, userId, Reducer(stores, userId, acc, txs[0]), txs[1..])
  }

  /** createTransactionRecords: never more records than transactions. */
  function CreateTransactionRecords(txs: seq<Transaction>, stores: seq<Store>, userId: string): (r: seq<TransactionRecord>)
    ensures |r| <= |txs|
  {
    if |txs| == 0 then [] else Reduce(stores, userId, [], txs)
  }

  /** Some store's vendor name equals the transaction's description. */
  predicate Matches(t: Transaction, stores: seq<Store>)
  {
    VendorIndex(stores, t.description).Some?
  }

  /** The transactions that match a store, in input order. */
  function Matched(txs: seq<Transaction>, stores: seq<Store>): seq<Transaction>
  {
    if txs == [] then []
    else (if Matches(txs[0], stores) then [txs[0]] else []) + Matched(txs[1..], stores)
  }

  /** `r` is the record createTransactionRecords builds for `t`: the signed amount, the posting
      date, the user id, the id of the FIRST store named like `t`, and
      |amount| times that store's points rate. */
  ghost predicate IsRecordOf(r: TransactionRecord, t: Transaction, stores: seq<Store>, userId: string)
  {
    match VendorIndex(stores, t.description)
    case None => false
    case Some(k) =>
      && r.amount == t.amount
      && r.date == t.postDate
      && r.userId == userId
      && r.storeId == stores[k].id
      && r.points == Abs(t.amount) * stores[k].pointsRate
  }

  lemma {:induction false} MatchedSpec(txs: seq<Transaction>, stores: seq<Store>)
    ensures |Matched(txs, stores)| <= |txs|
    ensures forall t :: t in Matched(txs, stores) <==> t in txs && Matches(t, stores)
  {
    if txs != [] {
      MatchedSpec(txs[1..], stores);
      assert txs == [txs[0]] + txs[1..];
    }
  }

  /** The records a fold from the other end produces. */
  function Records(stores: seq<Store>, userId: string, txs: seq<Transaction>): seq<TransactionRecord>
  {
    if txs == [] then []
    else Reducer(stores, userId, [], txs[0]) + Records(stores, userId, txs[1..])
  }

  /** The reducer appends to any accumulator what it appends to the empty one. */
  lemma ReducerAppends(stores: seq<Store>, userId: string, acc: seq<TransactionRecord>, t: Transaction)
    ensures Reducer(stores, userId, acc, t) == acc + Reducer(stores, userId, [], t)
  {
  }

  lemma {:induction false} ReduceIsRecords(stores: seq<Store>, userId: string, acc: seq<TransactionRecord>, txs: seq<Transaction>)
    ensures Reduce(stores, userId, acc, txs) == acc + Records(stores, userId, txs)
    decreases |txs|
  {
    if txs != [] {
      var acc' := Reducer(stores, userId, acc, txs[0]);
      ReducerAppends(stores, userId, acc, txs[0]);
      ReduceIsRecords(stores, userId, acc', txs[1..]);
    }
  }

  /** Records built pairwise from transactions, one record per transaction. */
  ghost predicate RecordsOf(rs: seq<TransactionRecord>, ts: seq<Transaction>, stores: seq<Store>, userId: string)
  {
    |rs| == |ts| && forall i :: 0 <= i < |rs| ==> IsRecordOf(rs[i], ts[i], stores, userId)
  }

  lemma ConsRecordsOf(r: TransactionRecord, t: Transaction, rs: seq<TransactionRecord>, ts: seq<Transaction>,
                      stores: seq<Store>, userId: string)
    requires IsRecordOf(r, t, stores, userId) && RecordsOf(rs, ts, stores, userId)
    ensures RecordsOf([r] + rs, [t] + ts, stores, userId)
  {
  }

  lemma {:induction false} RecordsOfMatched(stores: seq<Store>, userId: string, txs: seq<Transaction>)
    ensures RecordsOf(Records(stores, userId, txs), Matched(txs, stores), stores, userId)
  {
    if txs != [] {
      RecordsOfMatched(stores, userId, txs[1..]);
      var head := Reducer(stores, userId, [], txs[0]);
      if Matches(txs[0], stores) {
        assert |head| == 1 && IsRecordOf(head[0], txs[0], stores, userId);
        assert head == [head[0]];
        ConsRecordsOf(head[0], txs[0], Records(stores, userId, txs[1..]), Matched(txs[1..], stores), stores, userId);
      } else {
        assert head == [];
      }
    }
  }

  /** The records are exactly the matching transactions, in input order, each
      turned into its record; none is produced from no input. */
  lemma CreateTransactionRecordsSpec(txs: seq<Transaction>, stores: seq<Store>, userId: string)
    ensures txs == [] ==> CreateTransactionRecords(txs, stores, userId) == []
    ensures |Matched(txs, stores)| <= |txs|
    ensures RecordsOf(CreateTransactionRecords(txs, stores, userId), Matched(txs, stores), stores, userId)
  {
    MatchedSpec(txs, stores);
    RecordsOfMatched(stores, userId, txs);
    if txs != [] {
      ReduceIsRecords(stores, userId, [], txs);
      assert [] + Records(stores, userId, txs) == Records(stores, userId, txs);
    }
  }

  // ---------------------------------------------------------------------------
  // Specification of processNewTransactions
  // ---------------------------------------------------------------------------

  /** The distinct store ids of `s`, in order of first occurrence (the key order of
      a JavaScript `Map` filled from `s`). */
  function DistinctStoreIds(s: seq<TransactionRecord>): seq<StoreId>
    decreases |s|
  {
    if s == [] then []
    else
      var d := DistinctStoreIds(s[..|s| - 1]);
      var id := s[|s| - 1].storeId;
      if id in d then d else d + [id]
  }

  /** Number of records of `s` at store `id`. */
  function CountFor(s: seq<TransactionRecord>, id: StoreId): nat
    decreases |s|
  {
    if s == [] then 0
    else CountFor(s[..|s| - 1], id) + (if s[|s| - 1].storeId == id then 1 else 0)
  }

  /** Sum of the points of the records of `s` at store `id`. */
  function PointsFor(s: seq<TransactionRecord>, id: StoreId): real
    decreases |s|
  {
    if s == [] then 0.0
    else PointsFor(s[..|s| - 1], id) + (if s[|s| - 1].storeId == id then s[|s| - 1].points else 0.0)
  }

  /** Sum of |amount| over `s`. */
  function TotalSpend(s: seq<TransactionRecord>): real
    decreases |s|
  {
    if s == [] then 0.0 else TotalSpend(s[..|s| - 1]) + Abs(s[|s| - 1].amount)
  }

  /** The balance processNewTransactions computes for store `id` from the records `s`: every
      record at that store adds the stored balance, its own points, and what the
      map held before (0 when it held nothing). */
  function StoreBalance(s: seq<TransactionRecord>, points: seq<PointsRow>, id: StoreId): real
    decreases |s|
  {
    if s == [] then 0.0
    else
      StoreBalance(s[..|s| - 1], points, id)
        + (if s[|s| - 1].storeId == id then CurrentBalance(points, id) + s[|s| - 1].points else 0.0)
  }

  /** One points record per store touched by `s`, in first-occurrence order. */
  function ExpectedPointsRecords(s: seq<TransactionRecord>, points: seq<PointsRow>): seq<PointsRecord>
  {
    var d := DistinctStoreIds(s);
    seq(|d|, i requires 0 <= i < |d| => PointsRecord(StoreBalance(s, points, d[i]), d[i]))
  }

  /** `userData.rewards.map(reward => reward.reward_types!.id)`: the ids of the
      reward types the user already holds, or `None` when some reward's join is
      null, where the property access throws a `TypeError`. */
  function ExistingRewardIds(rewards: seq<UserReward>): (r: Option<seq<RewardTypeId>>)
    ensures r.None? <==> exists i :: 0 <= i < |rewards| && rewards[i].rewardType.None?
    ensures r.Some? ==> |r.value| == |rewards| &&
                        forall i :: 0 <= i < |rewards| ==> rewards[i].rewardType == Some(r.value[i])
  {
    if rewards == [] then Some([])
    else match rewards[0].rewardType
      case None => None
      case Some(id) =>
        match ExistingRewardIds(rewards[1..])
        case None => None
        case Some(ids) => Some([id] + ids)
  }

  /** The ids of the reward types earned at a balance, over `rts` in order. */
  function RewardsFor(balance: real, rts: seq<RewardType>, existing: seq<RewardTypeId>): seq<RewardTypeId>
    decreases |rts|
  {
    if rts == [] then []
    else
      var rt := rts[|rts| - 1];
      RewardsFor(balance, rts[..|rts| - 1], existing)
        + (if balance > rt.cost && rt.id !in existing then [rt.id] else [])
  }

  /** The reward type ids earned by one points record; none when its store is unknown. */
  function StoreRewards(e: PointsRecord, stores: seq<Store>, existing: seq<RewardTypeId>): seq<RewardTypeId>
  {
    match StoreById(stores, e.storeId)
    case None => []
    case Some(store) => RewardsFor(e.balance, store.rewardTypes, existing)
  }

  /** The reward type ids earned by the points records, in the order they are pushed. */
  function EarnedRewards(entries: seq<PointsRecord>, stores: seq<Store>, existing: seq<RewardTypeId>): seq<RewardTypeId>
    decreases |entries|
  {
    if entries == [] then []
    else EarnedRewards(entries[..|entries| - 1], stores, existing)
           + StoreRewards(entries[|entries| - 1], stores, existing)
  }

  lemma EarnedRewardsAppend(entries: seq<PointsRecord>, e: PointsRecord, stores: seq<Store>, existing: seq<RewardTypeId>)
    ensures EarnedRewards(entries + [e], stores, existing) ==
              EarnedRewards(entries, stores, existing) + StoreRewards(e, stores, existing)
  {
  }

  /** Every `new Date().toISOString()` of a run is a separate reading of the
      clock: `clock(n)` is what the call numbered `n` (from 0) returns. The reward
      records for `ids`, pushed while `start` calls have already been made. */
  function Stamp(ids: seq<RewardTypeId>, clock: nat -> string, start: nat): seq<RewardRecord>
  {
    seq(|ids|, i requires 0 <= i < |ids| => RewardRecord(ids[i], clock(start + i)))
  }

  lemma StampAppend(a: seq<RewardTypeId>, b: seq<RewardTypeId>, clock: nat -> string, start: nat)
    ensures Stamp(a + b, clock, start) == Stamp(a, clock, start) + Stamp(b, clock, start + |a|)
  {
  }

  /** Points record `e` earns reward type `rt`: `rt` belongs to the store found for
      `e`, the balance strictly exceeds its cost, and the user does not hold it. */
  ghost predicate Earns(e: PointsRecord, rt: RewardType, stores: seq<Store>, existing: seq<RewardTypeId>)
  {
    match StoreById(stores, e.storeId)
    case None => false
    case Some(store) => rt in store.rewardTypes && e.balance > rt.cost && rt.id !in existing
  }

  /** The user update: the old global balance plus 10 points per unit of spend. */
  function NewUserRecord(s: seq<TransactionRecord>, user: UserData, lastUpdated: string): UserUpdate
  {
    UserUpdate(user.pointsBalance + TotalSpend(s) * POINTS_CONVERSION_RATE, lastUpdated)
  }

  /** The four writes the reconciliation issues, in the order it issues them, for
      the ids `existing` of the rewards the user holds. The reward records take
      the clock readings 0, 1, ... in push order, and `last_updated` the next one. */
  function ReconciliationWrites(s: seq<TransactionRecord>, user: UserData, stores: seq<Store>,
                                existing: seq<RewardTypeId>, clock: nat -> string): seq<Effect>
  {
    var pointsRecords := ExpectedPointsRecords(s, user.points);
    var earned := EarnedRewards(pointsRecords, stores, existing);
    [ UpsertPointsRecords(pointsRecords, user.id),
      InsertRewardRecords(Stamp(earned, clock, 0), user.id),
      InsertTransactions(s),
      UpdateUserRecord(NewUserRecord(s, user, clock(|earned|)), user.id) ]
  }

  // ---------------------------------------------------------------------------
  // Lemmas about the specification
  // ---------------------------------------------------------------------------

  lemma {:induction false} DistinctStoreIdsSpec(s: seq<TransactionRecord>)
    ensures forall i, j :: 0 <= i < j < |DistinctStoreIds(s)| ==> DistinctStoreIds(s)[i] != DistinctStoreIds(s)[j]
    ensures forall id :: id in DistinctStoreIds(s) <==> exists k :: 0 <= k < |s| && s[k].storeId == id
    decreases |s|
  {
    if s != [] {
      var p := s[..|s| - 1];
      DistinctStoreIdsSpec(p);
      forall id
        ensures id in DistinctStoreIds(s) <==> exists k :: 0 <= k < |s| && s[k].storeId == id
      {
        if id in DistinctStoreIds(p) {
          var k :| 0 <= k < |p| && p[k].storeId == id;
          assert s[k] == p[k];
        }
        if exists k :: 0 <= k < |s| && s[k].storeId == id {
          var k :| 0 <= k < |s| && s[k].storeId == id;
          if k < |p| { assert p[k] == s[k]; }
        }
      }
    }
  }

  /** The keys emitted so far are a prefix of the final key order: a store keeps
      the position of its first transaction. */
  lemma {:induction false} DistinctStoreIdsPrefix(s: seq<TransactionRecord>, n: nat)
    requires n <= |s|
    ensures DistinctStoreIds(s[..n]) <= DistinctStoreIds(s)
    decreases |s| - n
  {
    if n < |s| {
      DistinctStoreIdsPrefix(s, n + 1);
      assert s[..n + 1][..n] == s[..n];
    } else {
      assert s[..n] == s;
    }
  }

  /** A store with no record in `s` has no balance yet. */
  lemma {:induction false} UnseenStore(s: seq<TransactionRecord>, points: seq<PointsRow>, id: StoreId)
    requires id !in DistinctStoreIds(s)
    ensures StoreBalance(s, points, id) == 0.0
    decreases |s|
  {
    if s != [] {
      var p := s[..|s| - 1];
      assert DistinctStoreIds(p) <= DistinctStoreIds(s) by {
        DistinctStoreIdsPrefix(s, |s| - 1);
      }
      UnseenStore(p, points, id);
    }
  }

  /** The quirk of the balance loop in closed form: a store with k new records
      ends at k times the stored balance plus the sum of their points. */
  lemma {:induction false} StoreBalanceClosedForm(s: seq<TransactionRecord>, points: seq<PointsRow>, id: StoreId)
    ensures StoreBalance(s, points, id) == (CountFor(s, id) as real) * CurrentBalance(points, id) + PointsFor(s, id)
    decreases |s|
  {
    if s != [] {
      var p := s[..|s| - 1];
      StoreBalanceClosedForm(p, points, id);
      if s[|s| - 1].storeId == id {
        var c := CountFor(p, id) as real;
        var b := CurrentBalance(points, id);
        assert (c + 1.0) * b == c * b + b;
      }
    }
  }

  lemma TotalSpendAppend(s: seq<TransactionRecord>, t: TransactionRecord)
    ensures TotalSpend(s + [t]) == TotalSpend(s) + Abs(t.amount)
  {
  }

  /** One iteration of the balance loop keeps the points map and its key order
      in step with the records seen so far. */
  lemma BalancesStep(s: seq<TransactionRecord>, t: TransactionRecord, points: seq<PointsRow>,
                     pointsMap: map<StoreId, real>, order: seq<StoreId>)
    requires order == DistinctStoreIds(s)
    requires forall id :: id in pointsMap <==> id in order
    requires forall id :: id in pointsMap ==> pointsMap[id] == StoreBalance(s, points, id)
    ensures var previous := if t.storeId in pointsMap then pointsMap[t.storeId] else 0.0;
            var pointsMap' := pointsMap[t.storeId := CurrentBalance(points, t.storeId) + t.points + previous];
            var order' := if t.storeId in pointsMap then order else order + [t.storeId];
            && order' == DistinctStoreIds(s + [t])
            && (forall id :: id in pointsMap' <==> id in order')
            && (forall id :: id in pointsMap' ==> pointsMap'[id] == StoreBalance(s + [t], points, id))
  {
    assert (s + [t])[..|s|] == s;
    if t.storeId !in pointsMap {
      UnseenStore(s, points, t.storeId);
    }
  }

  /** The stored balance is counted once per new transaction: with a stored
      balance of 100 and two new transactions of 5 points at that store, the new
      balance is 210, not 110. */
  lemma StoredBalanceRecounted(points: seq<PointsRow>, userId: string)
    requires points == [PointsRow("store", Some(100.0))]
    ensures var s := [TransactionRecord(-5.0, "d1", 5.0, "store", userId),
                      TransactionRecord(5.0, "d2", 5.0, "store", userId)];
            StoreBalance(s, points, "store") == 210.0
  {
    var s := [TransactionRecord(-5.0, "d1", 5.0, "store", userId),
              TransactionRecord(5.0, "d2", 5.0, "store", userId)];
    var first := [s[0]];
    assert s[..|s| - 1] == first && first[..|first| - 1] == [];
    CurrentBalanceSpec(points, "store");
    assert StoreBalance(first, points, "store") == 105.0;
  }

  lemma {:induction false} TotalSpendNonNegative(s: seq<TransactionRecord>)
    ensures TotalSpend(s) >= 0.0
    decreases |s|
  {
    if s != [] { TotalSpendNonNegative(s[..|s| - 1]); }
  }

  /** Reconciliation never lowers the global points balance. */
  lemma GlobalBalanceNeverDecreases(s: seq<TransactionRecord>, user: UserData, lastUpdated: string)
    ensures NewUserRecord(s, user, lastUpdated).pointsBalance >= user.pointsBalance
  {
    TotalSpendNonNegative(s);
  }

  /** A reward type id is among those earned at one balance exactly when one of
      the reward types has that id, a cost strictly below the balance, and is not
      held yet. */
  lemma {:induction false} RewardsForSpec(balance: real, rts: seq<RewardType>, existing: seq<RewardTypeId>, id: RewardTypeId)
    ensures id in RewardsFor(balance, rts, existing) <==>
              exists rt :: rt in rts && rt.id == id && balance > rt.cost && rt.id !in existing
    decreases |rts|
  {
    if rts != [] {
      var p := rts[..|rts| - 1];
      RewardsForSpec(balance, p, existing, id);
      assert rts == p + [rts[|rts| - 1]];
    }
  }

  /** A reward type id is earned exactly when some points record earns it. */
  lemma {:induction false} EarnedRewardsSpec(entries: seq<PointsRecord>, stores: seq<Store>, existing: seq<RewardTypeId>, id: RewardTypeId)
    ensures id in EarnedRewards(entries, stores, existing) <==>
              exists e: PointsRecord, rt: RewardType :: e in entries && rt.id == id && Earns(e, rt, stores, existing)
    decreases |entries|
  {
    if entries != [] {
      var p := entries[..|entries| - 1];
      var e := entries[|entries| - 1];
      EarnedRewardsSpec(p, stores, existing, id);
      assert entries == p + [e];
      match StoreById(stores, e.storeId)
      case None =>
        assert forall rt :: !Earns(e, rt, stores, existing);
      case Some(store) =>
        RewardsForSpec(e.balance, store.rewardTypes, existing, id);
        if id in StoreRewards(e, stores, existing) {
          var rt :| rt in store.rewardTypes && rt.id == id && e.balance > rt.cost && rt.id !in existing;
          assert Earns(e, rt, stores, existing);
        }
        if exists rt: RewardType :: rt.id == id && Earns(e, rt, stores, existing) {
          var rt: RewardType :| rt.id == id && Earns(e, rt, stores, existing);
          assert rt in store.rewardTypes && e.balance > rt.cost && rt.id !in existing;
        }
    }
  }

  // ---------------------------------------------------------------------------
  // processNewTransactions and refreshUserData
  // ---------------------------------------------------------------------------

  /** The first loop of processNewTransactions: the total spend, and the map from
      each store touched to its new balance, with the map's key order. The
      stored balance is re-added for every transaction at the same store. */
  method AccumulateBalances(newTransactions: seq<TransactionRecord>, points: seq<PointsRow>)
    returns (totalSpend: real, pointsMap: map<StoreId, real>, order: seq<StoreId>)
    ensures totalSpend == TotalSpend(newTransactions)
    ensures order == DistinctStoreIds(newTransactions)
    ensures forall id :: id in pointsMap <==> id in order
    ensures forall id :: id in pointsMap ==> pointsMap[id] == StoreBalance(newTransactions, points, id)
  {
    totalSpend := 0.0;
    pointsMap := map[];
    order := [];
    for i := 0 to |newTransactions|
      invariant totalSpend == TotalSpend(newTransactions[..i])
      invariant order == DistinctStoreIds(newTransactions[..i])
      invariant forall id :: id in pointsMap <==> id in order
      invariant forall id :: id in pointsMap ==> pointsMap[id] == StoreBalance(newTransactions[..i], points, id)
    {
      var transaction := newTransactions[i];
      var id := transaction.storeId;
      ghost var before := newTransactions[..i];
      assert newTransactions[..i + 1] == before + [transaction];
      TotalSpendAppend(before, transaction);
      BalancesStep(before, transaction, points, pointsMap, order);
      var currentBalance := CurrentBalance(points, id);
      var previous := 0.0;
      if id in pointsMap {
        previous := pointsMap[id];
      } else {
        order := order + [id];
      }
      pointsMap := pointsMap[id := currentBalance + transaction.points + previous];
      totalSpend := totalSpend + Abs(transaction.amount);
    }
    assert newTransactions[..|newTransactions|] == newTransactions;
  }

  /** The inner loop over a store's reward types. Each reward pushed reads the
      clock once; `dateCalls` readings were taken before the loop. */
  method EarnRewards(balance: real, rewardTypes: seq<RewardType>, existingRewards: seq<RewardTypeId>,
                     clock: nat -> string, dateCalls: nat)
    returns (earned: seq<RewardRecord>, callsAfter: nat)
    ensures earned == Stamp(RewardsFor(balance, rewardTypes, existingRewards), clock, dateCalls)
    ensures callsAfter == dateCalls + |earned|
  {
    earned := [];
    callsAfter := dateCalls;
    for k := 0 to |rewardTypes|
      invariant earned == Stamp(RewardsFor(balance, rewardTypes[..k], existingRewards), clock, dateCalls)
      invariant callsAfter == dateCalls + |earned|
    {
      var rewardType := rewardTypes[k];
      assert rewardTypes[..k + 1][..k] == rewardTypes[..k];
      if balance > rewardType.cost && rewardType.id !in existingRewards {
        StampAppend(RewardsFor(balance, rewardTypes[..k], existingRewards), [rewardType.id], clock, dateCalls);
        earned := earned + [RewardRecord(rewardType.id, clock(callsAfter))];
        callsAfter := callsAfter + 1;
      }
    }
    assert rewardTypes[..|rewardTypes|] == rewardTypes;
  }

  /** One entry of the `forEach` appends exactly that entry's reward records,
      stamped with the clock readings that follow those already taken. */
  lemma StampedRewardsStep(entries: seq<PointsRecord>, e: PointsRecord, stores: seq<Store>, existing: seq<RewardTypeId>,
                           clock: nat -> string, done: seq<RewardRecord>, earned: seq<RewardRecord>)
    requires done == Stamp(EarnedRewards(entries, stores, existing), clock, 0)
    requires earned == Stamp(StoreRewards(e, stores, existing), clock, |done|)
    ensures done + earned == Stamp(EarnedRewards(entries + [e], stores, existing), clock, 0)
  {
  }

  /** The `forEach` over the points map: one points record per key in key order,
      and for each key whose store is known, the rewards its balance earns.
      `dateCalls` counts the clock readings taken. */
  method EmitRecords(order: seq<StoreId>, pointsMap: map<StoreId, real>, storeData: seq<Store>,
                     existingRewards: seq<RewardTypeId>, clock: nat -> string)
    returns (newPointsRecords: seq<PointsRecord>, newRewardsRecords: seq<RewardRecord>, dateCalls: nat)
    requires forall id :: id in order ==> id in pointsMap
    ensures |newPointsRecords| == |order|
    ensures forall j :: 0 <= j < |order| ==> newPointsRecords[j] == PointsRecord(pointsMap[order[j]], order[j])
    ensures newRewardsRecords == Stamp(EarnedRewards(newPointsRecords, storeData, existingRewards), clock, 0)
    ensures dateCalls == |newRewardsRecords|
  {
    newPointsRecords := [];
    newRewardsRecords := [];
    dateCalls := 0;
    for j := 0 to |order|
      invariant |newPointsRecords| == j
      invariant forall i :: 0 <= i < j ==> newPointsRecords[i] == PointsRecord(pointsMap[order[i]], order[i])
      invariant newRewardsRecords == Stamp(EarnedRewards(newPointsRecords, storeData, existingRewards), clock, 0)
      invariant dateCalls == |newRewardsRecords|
    {
      var storeId := order[j];
      var balance := pointsMap[storeId];
      var entry := PointsRecord(balance, storeId);
      var store := StoreById(storeData, storeId);
      var earned := [];
      if store.Some? {
        earned, dateCalls := EarnRewards(balance, store.value.rewardTypes, existingRewards, clock, dateCalls);
      }
      StampedRewardsStep(newPointsRecords, entry, storeData, existingRewards, clock, newRewardsRecords, earned);
      newPointsRecords := newPointsRecords + [entry];
      newRewardsRecords := newRewardsRecords + earned;
    }
  }

  lemma PointsRecordsOfMap(s: seq<TransactionRecord>, points: seq<PointsRow>, pointsMap: map<StoreId, real>,
                           order: seq<StoreId>, pointsRecords: seq<PointsRecord>)
    requires order == DistinctStoreIds(s)
    requires forall id :: id in order ==> id in pointsMap && pointsMap[id] == StoreBalance(s, points, id)
    requires |pointsRecords| == |order|
    requires forall j :: 0 <= j < |order| ==> pointsRecords[j] == PointsRecord(pointsMap[order[j]], order[j])
    ensures pointsRecords == ExpectedPointsRecords(s, points)
  {
  }

  /** Each reward record carries its own clock reading, taken in push order, and
      `last_updated` is read after all of them. */
  lemma TimestampsInCallOrder(s: seq<TransactionRecord>, user: UserData, stores: seq<Store>,
                              existing: seq<RewardTypeId>, clock: nat -> string)
    ensures var w := ReconciliationWrites(s, user, stores, existing, clock);
            var rewards := w[1].rewardRecords;
            && (forall j :: 0 <= j < |rewards| ==> rewards[j].earnedAt == clock(j))
            && w[3].update.lastUpdated == clock(|rewards|)
  {
  }

  /** The computation of processNewTransactions. `writesSucceed` is the outcome of
      waiting on the four database writes; `clock` gives the successive readings
      of `new Date()`. A reward whose reward type join is null makes the `map` over
      the user's rewards throw before any write is issued, and the promise rejects. */
  method ProcessNewTransactions(newTransactions: seq<TransactionRecord>, userData: UserData, storeData: seq<Store>,
                                clock: nat -> string, writesSucceed: bool)
    returns (result: Settled<bool>, writes: seq<Effect>)
    ensures ExistingRewardIds(userData.rewards).None? ==> result == Rejected && writes == []
    ensures ExistingRewardIds(userData.rewards).Some? ==>
              && result == Fulfilled(writesSucceed)
              && writes == ReconciliationWrites(newTransactions, userData, storeData,
                                                ExistingRewardIds(userData.rewards).value, clock)
  {
    var totalSpend, pointsMap, order := AccumulateBalances(newTransactions, userData.points);
    var existing := ExistingRewardIds(userData.rewards);
    if existing.None? {
      return Rejected, [];
    }
    var existingRewards := existing.value;
    var newPointsRecords, newRewardsRecords, dateCalls := EmitRecords(order, pointsMap, storeData, existingRewards, clock);
    PointsRecordsOfMap(newTransactions, userData.points, pointsMap, order, newPointsRecords);
    ghost var expected := ExpectedPointsRecords(newTransactions, userData.points);
    ghost var earned := EarnedRewards(expected, storeData, existingRewards);
    assert newRewardsRecords == Stamp(earned, clock, 0);
    ghost var update := UserUpdate(userData.pointsBalance + totalSpend * POINTS_CONVERSION_RATE, clock(dateCalls));
    assert update == NewUserRecord(newTransactions, userData, clock(|earned|));
    writes := [ UpsertPointsRecords(newPointsRecords, userData.id),
                InsertRewardRecords(newRewardsRecords, userData.id),
                InsertTransactions(newTransactions),
                UpdateUserRecord(UserUpdate(userData.pointsBalance + totalSpend * POINTS_CONVERSION_RATE, clock(dateCalls)), userData.id) ];
    assert writes == [ UpsertPointsRecords(expected, userData.id),
                       InsertRewardRecords(Stamp(earned, clock, 0), userData.id),
                       InsertTransactions(newTransactions),
                       UpdateUserRecord(NewUserRecord(newTransactions, userData, clock(|earned|)), userData.id) ];
    result := Fulfilled(writesSucceed);
  }

  /** refreshUserData for user `userId`. `userData` is what `fetchUserData` returns,
      `storeData` what `fetchStoresByVendorName` returns. With no new
      transactions it stops after the fetch and reports no new data. */
  method RefreshUserData(userId: string, userData: UserData, storeData: seq<Store>, clock: nat -> string, writesSucceed: bool)
    returns (result: Settled<bool>, effects: seq<Effect>)
    ensures userData.newTransactions == [] ==> result == Fulfilled(false) && effects == [FetchUserData(userId)]
    ensures userData.newTransactions != [] && ExistingRewardIds(userData.rewards).None? ==>
              result == Rejected && effects == [FetchUserData(userId), FetchStoresByVendorName]
    ensures userData.newTransactions != [] && ExistingRewardIds(userData.rewards).Some? ==>
              && result == Fulfilled(writesSucceed)
              && effects == [FetchUserData(userId), FetchStoresByVendorName] +
                            ReconciliationWrites(CreateTransactionRecords(userData.newTransactions, storeData, userData.id),
                                                 userData, storeData, ExistingRewardIds(userData.rewards).value, clock)
  {
    effects := [FetchUserData(userId)];
    if |userData.newTransactions| == 0 {
      return Fulfilled(false), effects;
    }
    effects := effects + [FetchStoresByVendorName];
    var newTransactions := CreateTransactionRecords(userData.newTransactions, storeData, userData.id);
    var writes;
    result, writes := ProcessNewTransactions(newTransactions, userData, storeData, clock, writesSucceed);
    effects := effects + writes;
  }

}
