/** Properties of the partial update and of the reference resolution that
    relate several requests or contrast the operations with one another. */
module LoanProperties {
  import opened LoanModel
  import opened LoanService

  /** A partial update changes no field whose key the request does not carry,
      and never the record's id. */
  lemma PatchedTouchesOnlyPresentKeys(others: set<string>, app: LoanApplication, p: Patch)
    requires Patched(others, app, p).Success?
    ensures Patched(others, app, p).value.id == app.id
    ensures forall key :: key !in PresentKeys(p) ==> SameField(app, Patched(others, app, p).value, key)
  {
  }

  /** A request with no recognised key leaves the record as it was. */
  lemma PatchedWithoutRecognisedKeys(others: set<string>, app: LoanApplication, p: Patch)
    requires PresentKeys(p) == {}
    ensures Patched(others, app, p) == Success(app)
  {
  }

  /** Keys that are not recognised have no effect: `Patched` never reads
      `otherKeys`, so this holds by construction; `WellFormed` and the bound
      on `extra` only keep both requests to ones that describe a map. */
  lemma PatchedIgnoresOtherKeys(others: set<string>, app: LoanApplication, p: Patch, extra: set<string>)
    requires WellFormed(p) && extra !! RecognisedKeys
    ensures Patched(others, app, p.(otherKeys := extra)) == Patched(others, app, p)
  {
  }

  /** Sending the same request twice saves the same record as sending it once. */
  lemma PatchedIdempotent(others: set<string>, app: LoanApplication, p: Patch)
    requires Patched(others, app, p).Success?
    ensures Patched(others, Patched(others, app, p).value, p) == Patched(others, app, p)
  {
  }

  /** The request that carries only the amount. */
  function AmountOnly(amount: int): Patch {
    Patch(Some(amount), None, None, None, None, None, None, {})
  }

  /** A request carrying only an amount changes the amount and nothing else. */
  lemma PatchedAmountOnly(others: set<string>, app: LoanApplication, amount: int)
    ensures Patched(others, app, AmountOnly(amount)) == Success(app.(amountRequired := amount))
  {
  }

  /** The request that carries only a status name. */
  function StatusOnly(text: string): Patch {
    Patch(None, None, None, Some(text), None, None, None, {})
  }

  /** The status-only update saves what a partial update carrying only that
      status name saves, and fails in the same cases. */
  lemma StatusUpdateIsStatusPatch(others: set<string>, app: LoanApplication, text: string)
    ensures Patched(others, app, StatusOnly(text)) == WithStatus(others, app, text)
  {
  }

  /** Unlike create and full update, a partial update does not consult the
      directories: a `user` key replaces a user that the user service serves
      with a bare placeholder, even when the service knows that id. */
  lemma PartialUpdateBypassesDirectories()
    ensures exists d: Directories, app: LoanApplication, u: int ::
              Resolved(app, d) && u in d.users
              && Patched({}, app, Patch(None, None, None, None, Some(u), None, None, {})).Success?
              && !Resolved(Patched({}, app, Patch(None, None, None, None, Some(u), None, None, {})).value, d)
  {
    var user := User(7, map["name" := "Alice"]);
    var product := LoanProduct(1, map[]);
    var vendor := Vendor(2, map[]);
    var d := Directories(map[7 := user], map[1 := product], map[2 := vendor]);
    var app := LoanApplication(1, 500, 12, "", Application_Submitted, user, product, vendor);
    var p := Patch(None, None, None, None, Some(7), None, None, {});
    assert d.users[7] == user && d.products[1] == product && d.vendors[2] == vendor;
    assert d.users.Values == {user};
    assert user.details != map[] by { assert "name" in user.details; }
    assert Resolved(app, d);
    assert !Resolved(Patched({}, app, p).value, d);
  }
}
