/**
 * The two decision-making endpoints of the license server: `initialize`,
 * which reports the configured version and live statistics, and `login`,
 * which checks the submitted Discord id and hardware id (HWID), re-binds the
 * HWID and returns the user's entitlements.
 */
module Server {
  import opened Records
  import opened Codec

  /** The body of a successful `initialize` response: `config.version` and `config.statistics`. */
  datatype InitResponse = InitResponse(version: string, statistics: Statistics)

  /**
   * The `initialize` endpoint. The version is the stored one if set, else the
   * one in the request, else `'1.0.0'`; the statistics are computed from the
   * user list, not read from the cache.
   */
  function Initialize(db: Db, requestVersion: Option<string>): (r: InitResponse)
    ensures r.statistics.user == |db.users|
    ensures r.statistics.products == TotalProducts(db.users)
    ensures StatisticsConsistent(db) ==> r.statistics == db.config.statistics
    ensures r.version != ""
    ensures Truthy(db.config.version) ==> r.version == db.config.version.value
    ensures !Truthy(db.config.version) && Truthy(requestVersion) ==> r.version == requestVersion.value
    ensures !Truthy(db.config.version) && !Truthy(requestVersion) ==> r.version == "1.0.0"
  {
    var version := Or(requestVersion, "1.0.0");
    InitResponse(Or(db.config.version, version), Statistics(|db.users|, TotalProducts(db.users)))
  }

  /** One entry of the login response's product list; the expiry is always present. */
  datatype ProductView = ProductView(name: string, expiry: string)

  /**
   * The `map` that formats the stored products for the login response: same
   * order, same names, a missing or empty expiry shown as `'2099-12-31'`.
   */
  function FormatProducts(products: seq<Product>): (r: seq<ProductView>)
    ensures |r| == |products|
    ensures forall k :: 0 <= k < |r| ==> r[k].name == products[k].name && r[k].expiry != ""
    ensures forall k :: 0 <= k < |r| && Truthy(products[k].expiry) ==> r[k].expiry == products[k].expiry.value
    ensures forall k :: 0 <= k < |r| && !Truthy(products[k].expiry) ==> r[k].expiry == FarFuture
  {
    if products == [] then []
    else [ProductView(products[0].name, Or(products[0].expiry, FarFuture))] + FormatProducts(products[1..])
  }

  /** The user part of a successful login response. */
  datatype Profile = Profile(username: string, discordId: string, hwid: string, products: seq<ProductView>)

  datatype LoginResponse =
    | MissingFields        // status 400: discordID or hwid missing or empty
    | UserNotFound         // status 401: no record with that Discord id
    | LoginOk(user: Profile)  // status 200

  /** `user.products || []` */
  function ProductsOrEmpty(u: User): seq<Product> {
    match u.products
    case None => []
    case Some(ps) => ps
  }

  /**
   * What a successful login with effective fields `discordId` and `hwid` does
   * to the database when record `i` is the one found: that record's HWID
   * becomes `hwid`, nothing else in it or elsewhere changes, and the database
   * is saved exactly when the stored HWID was different.
   */
  predicate Rebound(db: Db, i: nat, hwid: string, saved: bool, db': Db)
    requires i < |db.users|
  {
    && db'.config == db.config
    && |db'.users| == |db.users|
    && db'.users[i] == db.users[i].(hwid := Some(hwid))
    && (forall j :: 0 <= j < |db.users| && j != i ==> db'.users[j] == db.users[j])
    && (saved <==> db.users[i].hwid != Some(hwid))
    && (!saved ==> db' == db)
  }

  /** The response a successful login sends for record `i`. */
  function Welcome(db: Db, i: nat, hwid: string): Profile
    requires i < |db.users|
  {
    var u := db.users[i];
    Profile(Or(u.username, "User"), u.discordId, hwid, FormatProducts(ProductsOrEmpty(u)))
  }

  /**
   * The outcome of a login request, as the handler decides it. A missing or
   * empty field is refused before anything is looked up. Otherwise the
   * decoded pair is used: an unknown Discord id is refused and nothing
   * changes; a known one re-binds only the first matching record.
   */
  ghost predicate LoginOutcome(db: Db, codec: Codec, discordField: Option<string>, hwidField: Option<string>,
                               resp: LoginResponse, saved: bool, db': Db)
  {
    if !Truthy(discordField) || !Truthy(hwidField) then
      resp == MissingFields && !saved && db' == db
    else
      var (discordId, hwid) := DecodeFields(codec, discordField.value, hwidField.value);
      && (NoMatch(db.users, discordId) ==> resp == UserNotFound && !saved && db' == db)
      && (forall i :: FirstMatch(db.users, discordId, i) ==>
            Rebound(db, i, hwid, saved, db') && resp == LoginOk(Welcome(db, i, hwid)))
  }

  /**
   * The `login` endpoint on a loaded database. Returns the response, whether
   * the database was saved, and the database as it is afterwards.
   */
  method Login(db: Db, codec: Codec, discordField: Option<string>, hwidField: Option<string>)
    returns (resp: LoginResponse, saved: bool, db': Db)
    ensures LoginOutcome(db, codec, discordField, hwidField, resp, saved, db')
    ensures resp.LoginOk? ==> resp.user.hwid != "" && resp.user.discordId != ""
    // the cached statistics stay right: HWID changes touch no product list
    ensures StatisticsConsistent(db) ==> StatisticsConsistent(db')
  {
    if !Truthy(discordField) || !Truthy(hwidField) {
      return MissingFields, false, db;
    }
    var discordId, hwid := discordField.value, hwidField.value;
    var fields := DecodeFields(codec, discordId, hwid);
    discordId, hwid := fields.0, fields.1;

    var found := FindUser(db.users, discordId);
    if found.None? {
      return UserNotFound, false, db;
    }
    var i := found.value;
    var user := db.users[i];

    saved, db' := false, db;
    if !Truthy(user.hwid) {
      // first login: bind the machine
      user := user.(hwid := Some(hwid));
      saved, db' := true, db.(users := db.users[i := user]);
    } else if user.hwid != Some(hwid) {
      // a different machine: re-bind
      user := user.(hwid := Some(hwid));
      saved, db' := true, db.(users := db.users[i := user]);
    }
    TotalProductsUpdate(db.users, i, user);

    var products := FormatProducts(ProductsOrEmpty(user));
    resp := LoginOk(Profile(Or(user.username, "User"), user.discordId, user.hwid.value, products));
  }
}
