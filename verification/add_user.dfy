/**
 * The administrative command `add-user <DiscordID> <Username> [Productname]`:
 * creates a user record with one entitlement, or grants an existing user a
 * product it does not hold yet, and refreshes the cached statistics.
 */
module AddUserTool {
  import opened Records

  /** The product granted when no product name is given. */
  const DefaultProductName := "Fivem Client"

  datatype AddUserError =
    | Usage             // fewer than two arguments: usage printed, exit code 1
    | ProductsMissing   // the existing record has no products list: the tool stops on a TypeError

  /** `args[2] || 'Fivem Client'` */
  function ProductNameArg(args: seq<string>): (name: string)
    ensures name != ""
    ensures |args| > 2 && args[2] != "" ==> name == args[2]
    ensures |args| <= 2 || args[2] == "" ==> name == DefaultProductName
  {
    if |args| > 2 && args[2] != "" then args[2] else DefaultProductName
  }

  /** `products.some(p => p.name === name)` */
  predicate HasProduct(products: seq<Product>, name: string) {
    exists k :: 0 <= k < |products| && products[k].name == name
  }

  /** The entitlement the tool writes: the given product, expiring `'2099-12-31'`. */
  function Grant(name: string): Product {
    Product(name, Some(FarFuture))
  }

  /** The record written for a Discord id not yet in the database: no HWID bound, one product. */
  function NewUser(discordId: string, username: string, productName: string): User {
    User(discordId, Some(username), Some(""), Some([Grant(productName)]))
  }

  /** The database with `statistics.user` and `statistics.products` recomputed from its users. */
  function RefreshStatistics(db: Db): (r: Db)
    ensures StatisticsConsistent(r)
    ensures r.users == db.users && r.config.version == db.config.version
  {
    db.(config := db.config.(statistics := Statistics(|db.users|, TotalProducts(db.users))))
  }

  /**
   * What the tool does when record `i` is the one found for the id: the
   * record's products gain `Grant(productName)` unless it already has a
   * product of that name; its username and every other record stay as they
   * were. A record without a products list stops the tool.
   */
  predicate ExistingUserUpdated(db: Db, i: nat, productName: string, r: Result<Db, AddUserError>)
    requires i < |db.users|
  {
    match db.users[i].products
    case None => r == Err(ProductsMissing)
    case Some(ps) =>
      && r.Ok?
      && |r.value.users| == |db.users|
      && r.value.users[i] == db.users[i].(products := Some(if HasProduct(ps, productName) then ps else ps + [Grant(productName)]))
      && (forall j :: 0 <= j < |db.users| && j != i ==> r.value.users[j] == db.users[j])
  }

  /** The database the tool writes for arguments `args`, or why it stops without writing. */
  function AddUserSpec(db: Db, args: seq<string>): (r: Result<Db, AddUserError>)
    ensures |args| < 2 ==> r == Err(Usage)
    ensures r.Ok? ==> StatisticsConsistent(r.value) && r.value.config.version == db.config.version
    // a new Discord id: exactly one record appended at the end
    ensures |args| >= 2 && NoMatch(db.users, args[0]) ==>
              r == Ok(RefreshStatistics(db.(users := db.users + [NewUser(args[0], args[1], ProductNameArg(args))])))
    // a known Discord id: the user count stays, only that record's products may grow
    ensures |args| >= 2 ==>
              forall i :: FirstMatch(db.users, args[0], i) ==> ExistingUserUpdated(db, i, ProductNameArg(args), r)
  {
    if |args| < 2 then Err(Usage)
    else
      var discordId := args[0];
      var productName := ProductNameArg(args);
      match FindUser(db.users, discordId)
      case None =>
        Ok(RefreshStatistics(db.(users := db.users + [NewUser(discordId, args[1], productName)])))
      case Some(i) =>
        match db.users[i].products
        case None => Err(ProductsMissing)
        case Some(ps) =>
          if HasProduct(ps, productName) then Ok(RefreshStatistics(db))
          else Ok(RefreshStatistics(db.(users := db.users[i := db.users[i].(products := Some(ps + [Grant(productName)]))])))
  }

  /** The command itself, on the database it loaded; the result is what it saves. */
  method AddUser(db: Db, args: seq<string>) returns (r: Result<Db, AddUserError>)
    ensures r == AddUserSpec(db, args)
  {
    if |args| < 2 {
      return Err(Usage);
    }
    var discordId := args[0];
    var username := args[1];
    var productName := ProductNameArg(args);

    var users := db.users;
    var existing := FindUser(users, discordId);
    if existing.Some? {
      var i := existing.value;
      if users[i].products.None? {
        return Err(ProductsMissing);
      }
      var products := users[i].products.value;
      if !HasProduct(products, productName) {
        products := products + [Grant(productName)];
        users := users[i := users[i].(products := Some(products))];
      }
    } else {
      users := users + [NewUser(discordId, username, productName)];
    }

    var statistics := Statistics(|users|, TotalProducts(users));
    r := Ok(db.(users := users, config := db.config.(statistics := statistics)));
  }

  /** After a successful run the first record with the given id holds the given product. */
  lemma AddUserGrants(db: Db, args: seq<string>)
    requires AddUserSpec(db, args).Ok?
    ensures var db1 := AddUserSpec(db, args).value;
            exists i :: FirstMatch(db1.users, args[0], i) && db1.users[i].products.Some?
                        && HasProduct(db1.users[i].products.value, ProductNameArg(args))
  {
    var db1 := AddUserSpec(db, args).value;
    var name := ProductNameArg(args);
    match FindUser(db.users, args[0])
    case None =>
      FindUserAppended(db.users, NewUser(args[0], args[1], name));
      var i := |db.users|;
      assert db1.users[i].products.value[0].name == name;
      assert FirstMatch(db1.users, args[0], i);
    case Some(i) =>
      var ps := db.users[i].products.value;
      var ps1 := db1.users[i].products.value;
      if !HasProduct(ps, name) {
        assert ps1[|ps|].name == name;
      }
      assert FirstMatch(db1.users, args[0], i);
  }

  /** Running the tool a second time with the same arguments writes the same database again. */
  lemma AddUserIdempotent(db: Db, args: seq<string>)
    requires AddUserSpec(db, args).Ok?
    ensures AddUserSpec(AddUserSpec(db, args).value, args) == AddUserSpec(db, args)
  {
    var db1 := AddUserSpec(db, args).value;
    AddUserGrants(db, args);
    var i :| FirstMatch(db1.users, args[0], i) && db1.users[i].products.Some?
             && HasProduct(db1.users[i].products.value, ProductNameArg(args));
    assert FindUser(db1.users, args[0]) == Some(i);
    assert RefreshStatistics(db1) == db1;
  }

  /**
   * No record is removed or reordered, and only product lists change: the
   * user count grows by one exactly for a new Discord id, and every existing
   * record keeps its id, username and HWID.
   */
  lemma AddUserKeepsRecords(db: Db, args: seq<string>)
    requires AddUserSpec(db, args).Ok?
    ensures var db1 := AddUserSpec(db, args).value;
            && |db1.users| == |db.users| + (if NoMatch(db.users, args[0]) then 1 else 0)
            && forall j :: 0 <= j < |db.users| ==>
                 db1.users[j] == db.users[j].(products := db1.users[j].products)
  {}

}
