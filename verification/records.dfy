/**
 * The stored shape of the license database (`database.json`): a list of user
 * records, each with its entitlements ("products"), and a `config` object with
 * a version string and cached statistics. Also the two list helpers both
 * tools use: the `find` by Discord id and the `reduce` that counts products.
 */
module Records {

  datatype Option<T> = None | Some(value: T)

  datatype Result<T, E> = Ok(value: T) | Err(error: E)

  /** JavaScript truthiness of a string that may be missing: `undefined`, `null` and `""` are falsy. */
  predicate Truthy(s: Option<string>) {
    s.Some? && s.value != ""
  }

  /** The JavaScript expression `s || fallback` for a string that may be missing. */
  function Or(s: Option<string>, fallback: string): string {
    if Truthy(s) then s.value else fallback
  }

  /** The expiry written for every entitlement the admin tool grants, and shown for one without an expiry. */
  const FarFuture := "2099-12-31"

  /** One entitlement; `expiry` may be missing in the stored JSON. */
  datatype Product = Product(name: string, expiry: Option<string>)

  /**
   * One user record. `hwid` is missing or empty until the first login binds a
   * machine; `products` may be missing altogether in a hand-edited file.
   */
  datatype User = User(
    discordId: string,
    username: Option<string>,
    hwid: Option<string>,
    products: Option<seq<Product>>)

  /** The cached aggregate counts stored under `config.statistics`. */
  datatype Statistics = Statistics(user: int, products: int)

  datatype Config = Config(version: Option<string>, statistics: Statistics)

  datatype Db = Db(users: seq<User>, config: Config)

  /** `user.products ? user.products.length : 0` */
  function ProductCount(u: User): nat {
    match u.products
    case None => 0
    case Some(ps) => |ps|
  }

  /** The `reduce` that adds up the product counts of all users. */
  function TotalProducts(users: seq<User>): nat {
    if users == [] then 0 else ProductCount(users[0]) + TotalProducts(users[1..])
  }

  /** The cached statistics agree with the user list they summarise. */
  predicate StatisticsConsistent(db: Db) {
    db.config.statistics == Statistics(|db.users|, TotalProducts(db.users))
  }

  /** `i` is the index of the first user whose Discord id is `discordId`. */
  predicate FirstMatch(users: seq<User>, discordId: string, i: int) {
    && 0 <= i < |users|
    && users[i].discordId == discordId
    && forall j :: 0 <= j < i ==> users[j].discordId != discordId
  }

  /** No user has Discord id `discordId`. */
  predicate NoMatch(users: seq<User>, discordId: string) {
    forall j :: 0 <= j < |users| ==> users[j].discordId != discordId
  }

  /** `users.find(u => u.discordId === discordId)`, returning the index of the record found. */
  function FindUser(users: seq<User>, discordId: string): (r: Option<nat>)
    ensures r.Some? ==> FirstMatch(users, discordId, r.value)
    ensures r.None? <==> NoMatch(users, discordId)
  {
    if users == [] then None
    else if users[0].discordId == discordId then Some(0)
    else match FindUser(users[1..], discordId)
      case None => None
      case Some(k) => Some(k + 1)
  }

  /** Appending a record for an id nobody has makes that record the one found. */
  lemma FindUserAppended(users: seq<User>, u: User)
    requires NoMatch(users, u.discordId)
    ensures FindUser(users + [u], u.discordId) == Some(|users|)
  {
    assert FirstMatch(users + [u], u.discordId, |users|);
  }

  /** Appending a record adds its products to the total. */
  lemma {:induction false} TotalProductsAppend(users: seq<User>, u: User)
    ensures TotalProducts(users + [u]) == TotalProducts(users) + ProductCount(u)
  {
    if users != [] {
      assert (users + [u])[1..] == users[1..] + [u];
      TotalProductsAppend(users[1..], u);
    }
  }

  /** Replacing one record changes the total by the difference of the two records' product counts. */
  lemma {:induction false} TotalProductsUpdate(users: seq<User>, i: nat, u: User)
    requires i < |users|
    ensures TotalProducts(users[i := u]) == TotalProducts(users) - ProductCount(users[i]) + ProductCount(u)
  {
    if i == 0 {
      assert users[i := u][1..] == users[1..];
    } else {
      assert users[i := u][1..] == users[1..][i - 1 := u];
      TotalProductsUpdate(users[1..], i - 1, u);
    }
  }
}
