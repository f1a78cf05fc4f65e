/**
 * How the two tools meet: a record created by the admin command is the one
 * the login endpoint later finds, binds and reports.
 */
module Lifecycle {
  import opened Records
  import opened Codec
  import opened Server
  import opened AddUserTool

  /**
   * A browser login right after `add-user` created the record: the Discord id
   * and HWID arrive as plaintext, so the pair does not decrypt. Any outcome
   * `Login` may produce is then a success: the HWID is bound and saved, and
   * the response lists exactly the one granted product with its far-future
   * expiry.
   */
  lemma NewRecordFirstLogin(db: Db, args: seq<string>, codec: Codec, hwid: string,
                            resp: LoginResponse, saved: bool, db2: Db)
    requires |args| >= 2 && NoMatch(db.users, args[0]) && args[0] != "" && hwid != ""
    requires !Truthy(Decrypted(codec, args[0])) || !Truthy(Decrypted(codec, hwid))
    requires LoginOutcome(AddUserSpec(db, args).value, codec, Some(args[0]), Some(hwid), resp, saved, db2)
    ensures saved
    ensures |db2.users| == |db.users| + 1 && db2.users[|db.users|].hwid == Some(hwid)
    ensures resp == LoginOk(Profile(Or(Some(args[1]), "User"), args[0], hwid,
                                    [ProductView(ProductNameArg(args), FarFuture)]))
  {
    var db1 := AddUserSpec(db, args).value;
    assert DecodeFields(codec, args[0], hwid) == (args[0], hwid);
    assert FirstMatch(db1.users, args[0], |db.users|);
    assert ProductsOrEmpty(db1.users[|db.users|]) == [Grant(ProductNameArg(args))];
  }
}
