/** The rows the reconciliation reads and writes. Amounts, rates, points and
    balances are already-parsed numbers, modelled as mathematical reals. */
module Tables {
  import opened Wrappers

  type StoreId = string
  type RewardTypeId = string

  /** A bank transaction as delivered by the bank-data provider. */
  datatype Transaction = Transaction(amount: real, description: string, postDate: string)

  /** A reward a store offers once a customer's balance there exceeds `cost`. */
  datatype RewardType = RewardType(id: RewardTypeId, cost: real)

  datatype Store = Store(id: StoreId, vendorName: string, pointsRate: real, rewardTypes: seq<RewardType>)

  /** A row of the `transactions` table (without its generated id). */
  datatype TransactionRecord = TransactionRecord(amount: real, date: string, points: real, storeId: StoreId, userId: string)

  /** The user's stored points balance at one store; the column may be null. */
  datatype PointsRow = PointsRow(storeId: StoreId, balance: Option<real>)

  /** A reward the user already holds, with the id of its joined reward type;
      the join is null when the reward type row is missing. */
  datatype UserReward = UserReward(rewardType: Option<RewardTypeId>)

  /** What `fetchUserData` returns: the user row, its points rows, its rewards
      and the bank transactions not yet reconciled. */
  datatype UserData = UserData(
    id: string,
    pointsBalance: real,
    points: seq<PointsRow>,
    rewards: seq<UserReward>,
    newTransactions: seq<Transaction>)

  /** A row to upsert into the `points` table (the user id is added by the client call). */
  datatype PointsRecord = PointsRecord(balance: real, storeId: StoreId)

  /** A row to insert into the `rewards` table (the user id is added by the client call). */
  datatype RewardRecord = RewardRecord(rewardId: RewardTypeId, earnedAt: string)

  datatype UserUpdate = UserUpdate(pointsBalance: real, lastUpdated: string)

  /** The database client calls, recorded with their arguments. */
  datatype Effect =
    | FetchUserData(userId: string)
    | FetchStoresByVendorName
    | UpsertPointsRecords(pointsRecords: seq<PointsRecord>, ownerId: string)
    | InsertRewardRecords(rewardRecords: seq<RewardRecord>, ownerId: string)
    | InsertTransactions(transactions: seq<TransactionRecord>)
    | UpdateUserRecord(update: UserUpdate, ownerId: string)

}
