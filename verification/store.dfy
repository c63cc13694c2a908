/** The persistent store: the `users` and `transactions` collections, each a
    sequence of documents in natural order, with the lookups the controllers
    perform on them. */
module Store {
  import opened Values
  import opened ObjectIds

  /** A stored credit balance. The image controller distinguishes a numeric
      balance from one that is not a number (or is NaN), so the model tags it. */
  datatype Balance = Number(value: int) | NotANumber

  /** A balance that is a number is not negative. */
  predicate NonNegative(b: Balance)
  {
    b.Number? ==> b.value >= 0
  }

  /** JavaScript/MongoDB arithmetic on a balance: NaN absorbs every addition. */
  function AddCredits(b: Balance, k: int): (r: Balance)
    ensures r.Number? <==> b.Number?
    ensures r.Number? ==> r.value - b.value == k
  {
    match b
    case Number(n) => Number(n + k)
    case NotANumber => NotANumber
  }

  /** A user document; `password` holds the salted hash. */
  datatype UserDoc = UserDoc(id: ObjectId, name: string, email: string, password: string, creditBalance: Balance)

  /** A transaction document: one attempt to buy the credits of a plan. */
  datatype TxnDoc = TxnDoc(id: ObjectId, userId: ObjectId, plan: string, amount: int, credits: int, payment: bool, date: int)

  datatype Store = Store(users: seq<UserDoc>, txns: seq<TxnDoc>)

  /** Position of the document `findOne({ email })` returns. */
  function UserIndexByEmail(users: seq<UserDoc>, email: string): (r: Option<nat>)
    ensures r.Some? ==> r.value < |users| && users[r.value].email == email
    ensures r.Some? ==> forall j :: 0 <= j < r.value ==> users[j].email != email
    ensures r.None? <==> forall j :: 0 <= j < |users| ==> users[j].email != email
  {
    FirstIndex(users, (u: UserDoc) => u.email == email)
  }

  /** Position of the document `findById(id)` returns in the users collection. */
  function UserIndex(users: seq<UserDoc>, id: ObjectId): (r: Option<nat>)
    ensures r.Some? ==> r.value < |users| && users[r.value].id == id
    ensures r.Some? ==> forall j :: 0 <= j < r.value ==> users[j].id != id
    ensures r.None? <==> forall j :: 0 <= j < |users| ==> users[j].id != id
  {
    FirstIndex(users, (u: UserDoc) => u.id == id)
  }

  /** Position of the document `findById(id)` returns in the transactions collection. */
  function TxnIndex(txns: seq<TxnDoc>, id: ObjectId): (r: Option<nat>)
    ensures r.Some? ==> r.value < |txns| && txns[r.value].id == id
    ensures r.Some? ==> forall j :: 0 <= j < r.value ==> txns[j].id != id
    ensures r.None? <==> forall j :: 0 <= j < |txns| ==> txns[j].id != id
  {
    FirstIndex(txns, (t: TxnDoc) => t.id == id)
  }

  /** The user document with the given id, if one is stored. */
  function UserById(users: seq<UserDoc>, id: ObjectId): (r: Option<UserDoc>)
    ensures r.Some? <==> exists j :: 0 <= j < |users| && users[j].id == id
    ensures r.Some? ==> r.value.id == id && r.value in users
  {
    match UserIndex(users, id)
    case Some(i) => Some(users[i])
    case None => None
  }

  /** The user document `findOne({ email })` returns, if any. */
  function UserByEmail(users: seq<UserDoc>, email: string): (r: Option<UserDoc>)
    ensures r.Some? <==> exists j :: 0 <= j < |users| && users[j].email == email
    ensures r.Some? ==> r.value.email == email && r.value in users
  {
    match UserIndexByEmail(users, email)
    case Some(i) => Some(users[i])
    case None => None
  }

  /** Some stored user has this email. */
  predicate EmailTaken(users: seq<UserDoc>, email: string)
  {
    exists j :: 0 <= j < |users| && users[j].email == email
  }

  /** Some stored user has this id. */
  predicate UserIdTaken(users: seq<UserDoc>, id: ObjectId)
  {
    exists j :: 0 <= j < |users| && users[j].id == id
  }

  /** Some stored transaction has this id. */
  predicate TxnIdTaken(txns: seq<TxnDoc>, id: ObjectId)
  {
    exists j :: 0 <= j < |txns| && txns[j].id == id
  }

  /** No two user documents share an id. */
  predicate UniqueUserIds(users: seq<UserDoc>)
  {
    forall i, j :: 0 <= i < j < |users| ==> users[i].id != users[j].id
  }

  /** In a collection with unique ids, the lookup by a stored document's id finds that document. */
  lemma UserIndexOfStored(users: seq<UserDoc>, i: nat)
    requires UniqueUserIds(users)
    requires i < |users|
    ensures UserIndex(users, users[i].id) == Some(i)
  {
  }
}
