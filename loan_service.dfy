/** The loan application orchestrator: a record table that create, full update,
    delete, status update and partial update change one entry at a time, with
    the user, product and vendor references resolved against the remote
    directories on create and full update. */
module LoanService {
  import opened LoanModel

  /** The three references a record carries. */
  datatype References = References(user: User, product: LoanProduct, vendor: Vendor)

  /** The sequential lookups of create and full update: user first, then
      product, then vendor; the first one that replies with nothing is the
      failure. */
  function Resolve(d: Directories, userId: int, productId: int, vendorId: int): (r: Result<References>)
    ensures r.Success? <==> userId in d.users && productId in d.products && vendorId in d.vendors
    ensures r.Success? ==> r.value == References(d.users[userId], d.products[productId], d.vendors[vendorId])
    ensures r == Failure(MissingEntity(UserKind, userId)) <==> userId !in d.users
    ensures r == Failure(MissingEntity(ProductKind, productId)) <==> userId in d.users && productId !in d.products
    ensures r == Failure(MissingEntity(VendorKind, vendorId)) <==>
              userId in d.users && productId in d.products && vendorId !in d.vendors
  {
    match Get(d.users, userId)
    case None => Failure(MissingEntity(UserKind, userId))
    case Some(user) =>
      match Get(d.products, productId)
      case None => Failure(MissingEntity(ProductKind, productId))
      case Some(product) =>
        match Get(d.vendors, vendorId)
        case None => Failure(MissingEntity(VendorKind, vendorId))
        case Some(vendor) => Success(References(user, product, vendor))
  }

  /** The record a partial update would save: each recognised key the request
      carries sets its field, a bad status name fails, a `user`, `product` or
      `vendor` key attaches a reference that carries only that id. */
  function Patched(others: set<string>, app: LoanApplication, p: Patch): (r: Result<LoanApplication>)
    ensures r.Failure? <==> p.status.Some? && ValueOf(others, p.status.value).None?
    ensures r.Failure? ==> r.error == InvalidStatus(p.status.value)
    ensures r.Success? ==> r.value.id == app.id
    ensures r.Success? && p.amountRequired.Some? ==> r.value.amountRequired == p.amountRequired.value
    ensures r.Success? && p.tenure.Some? ==> r.value.tenure == p.tenure.value
    ensures r.Success? && p.reviewMessage.Some? ==> r.value.reviewMessage == p.reviewMessage.value
    ensures r.Success? && p.status.Some? ==>
              Declared(others, r.value.status) && Name(r.value.status) == p.status.value
    ensures r.Success? && p.user.Some? ==> r.value.user == User(p.user.value, map[])
    ensures r.Success? && p.product.Some? ==> r.value.product == LoanProduct(p.product.value, map[])
    ensures r.Success? && p.vendor.Some? ==> r.value.vendor == Vendor(p.vendor.value, map[])
  {
    var status := if p.status.Some? then ValueOf(others, p.status.value) else Some(app.status);
    if status.None? then Failure(InvalidStatus(p.status.value))
    else
      Success(LoanApplication(
        app.id,
        if p.amountRequired.Some? then p.amountRequired.value else app.amountRequired,
        if p.tenure.Some? then p.tenure.value else app.tenure,
        if p.reviewMessage.Some? then p.reviewMessage.value else app.reviewMessage,
        status.value,
        if p.user.Some? then User(p.user.value, map[]) else app.user,
        if p.product.Some? then LoanProduct(p.product.value, map[]) else app.product,
        if p.vendor.Some? then Vendor(p.vendor.value, map[]) else app.vendor))
  }

  /** The record a status update would save: the status becomes the constant
      named `text`, and a name that is no constant's fails. */
  function WithStatus(others: set<string>, app: LoanApplication, text: string): Result<LoanApplication> {
    match ValueOf(others, text)
    case None => Failure(InvalidStatus(text))
    case Some(status) => Success(app.(status := status))
  }

  /** The service over the repository's table. The directories are passed to
      each operation that consults them. */
  class LoanApplicationService {
    /** The names of the status constants other than `Application_Submitted`. */
    const statusNames: set<string>
    /** The repository: every stored record, by id. */
    var store: map<int, LoanApplication>
    /** The id the repository assigns to the next record it inserts. */
    var nextId: int

    /** Each record is stored under its own id, every id is below the next
        one to be assigned, and every stored status is a constant of the
        enumeration. */
    ghost predicate Valid()
      reads this
    {
      forall k :: k in store ==> store[k].id == k && k < nextId && Declared(statusNames, store[k].status)
    }

    /** The service over the repository as it is injected: the records it
        already holds, and the id its generator assigns next. */
    constructor (statuses: set<string>, table: map<int, LoanApplication>, next: int)
      requires forall k :: k in table ==> table[k].id == k && k < next && Declared(statuses, table[k].status)
      ensures Valid() && store == table && nextId == next && statusNames == statuses
    {
      statusNames := statuses;
      store := table;
      nextId := next;
    }

    /** `findAll`: every stored record. */
    function GetAllLoanApplications(): (all: set<LoanApplication>)
      reads this
      requires Valid()
      ensures forall a :: a in all <==> a.id in store && store[a.id] == a
    {
      set k | k in store :: store[k]
    }

    /** `findById`, failing with NotFound for an absent id. */
    function GetLoanApplicationById(id: int): (r: Result<LoanApplication>)
      reads this
      requires Valid()
      ensures r.Success? <==> id in store
      ensures r.Success? ==> r.value == store[id] && r.value.id == id
      ensures r.Failure? ==> r.error == NotFound(id)
    {
      if id in store then Success(store[id]) else Failure(NotFound(id))
    }

    /** Builds a submitted record from the request and the three entities the
        directories reply with, and inserts it under a fresh id; fails, saving
        nothing, at the first lookup that replies with nothing. */
    method AddLoanApplication(dto: LoanApplicationDto, d: Directories) returns (r: Result<LoanApplication>)
      requires Valid()
      modifies this`store, this`nextId
      ensures Valid()
      ensures r.Success? <==> Resolve(d, dto.userId, dto.productId, dto.vendorId).Success?
      ensures r.Failure? ==>
                r.error == Resolve(d, dto.userId, dto.productId, dto.vendorId).error
                && store == old(store) && nextId == old(nextId)
      ensures r.Success? ==>
                r.value.id !in old(store) && r.value.id == old(nextId) && nextId == old(nextId) + 1
                && store == old(store)[r.value.id := r.value]
                && r.value.status == Application_Submitted
                && r.value.amountRequired == dto.amountRequired
                && r.value.tenure == dto.tenure
                && r.value.reviewMessage == dto.reviewMessage
                && r.value.user == d.users[dto.userId]
                && r.value.product == d.products[dto.productId]
                && r.value.vendor == d.vendors[dto.vendorId]
                && Resolved(r.value, d)
    {
      var amountRequired, tenure := dto.amountRequired, dto.tenure;
      var status, reviewMessage := Application_Submitted, dto.reviewMessage;

      var user := Get(d.users, dto.userId);
      if user.None? {
        return Failure(MissingEntity(UserKind, dto.userId));
      }
      var product := Get(d.products, dto.productId);
      if product.None? {
        return Failure(MissingEntity(ProductKind, dto.productId));
      }
      var vendor := Get(d.vendors, dto.vendorId);
      if vendor.None? {
        return Failure(MissingEntity(VendorKind, dto.vendorId));
      }

      // save: the repository assigns the id
      var app := LoanApplication(nextId, amountRequired, tenure, reviewMessage, status,
                                 user.value, product.value, vendor.value);
      store := store[app.id := app];
      nextId := nextId + 1;
      r := Success(app);
    }

    /** Overwrites amount, tenure, review message and status of the stored
        record from `incoming`, and its references with the entities the
        directories reply with for the ids nested in `incoming`. */
    method UpdateLoanApplication(id: int, incoming: LoanApplication, d: Directories) returns (r: Outcome)
      requires Valid()
      requires Declared(statusNames, incoming.status)  // a Java enum value is always a constant
      modifies this`store
      ensures Valid()
      ensures id !in old(store) ==> r == Fail(NotFound(id)) && store == old(store)
      ensures id in old(store) ==>
                var refs := Resolve(d, incoming.user.userId, incoming.product.productId, incoming.vendor.vendorId);
                (refs.Failure? ==> r == Fail(refs.error) && store == old(store))
                && (refs.Success? ==>
                      r == Pass
                      && store == old(store)[id := old(store)[id].(
                                    amountRequired := incoming.amountRequired,
                                    tenure := incoming.tenure,
                                    reviewMessage := incoming.reviewMessage,
                                    status := incoming.status,
                                    user := refs.value.user,
                                    product := refs.value.product,
                                    vendor := refs.value.vendor)]
                      && Resolved(store[id], d))
    {
      if id !in store {
        return Fail(NotFound(id));
      }
      var app := store[id];

      app := app.(amountRequired := incoming.amountRequired);
      app := app.(tenure := incoming.tenure);
      app := app.(reviewMessage := incoming.reviewMessage);
      app := app.(status := incoming.status);

      var user := Get(d.users, incoming.user.userId);
      if user.None? {
        return Fail(MissingEntity(UserKind, incoming.user.userId));
      }
      app := app.(user := user.value);

      var product := Get(d.products, incoming.product.productId);
      if product.None? {
        return Fail(MissingEntity(ProductKind, incoming.product.productId));
      }
      app := app.(product := product.value);

      var vendor := Get(d.vendors, incoming.vendor.vendorId);
      if vendor.None? {
        return Fail(MissingEntity(VendorKind, incoming.vendor.vendorId));
      }
      app := app.(vendor := vendor.value);

      store := store[id := app];
      r := Pass;
    }

    /** Removes the record with this id. */
    method DeleteLoanApplication(id: int) returns (r: Outcome)
      requires Valid()
      modifies this`store
      ensures Valid()
      ensures r == (if id in old(store) then Pass else Fail(NotFound(id)))
      ensures store == old(store) - {id}
    {
      if id !in store {
        return Fail(NotFound(id));
      }
      var app := store[id];
      store := store - {app.id};
      r := Pass;
    }

    /** Sets the status of the stored record to the constant named `text`. */
    method UpdateApplicationStatus(id: int, text: string) returns (r: Outcome)
      requires Valid()
      modifies this`store
      ensures Valid()
      ensures id !in old(store) ==> r == Fail(NotFound(id)) && store == old(store)
      ensures id in old(store) && WithStatus(statusNames, old(store)[id], text).Failure? ==>
                r == Fail(InvalidStatus(text)) && store == old(store)
      ensures id in old(store) && WithStatus(statusNames, old(store)[id], text).Success? ==>
                r == Pass && store == old(store)[id := WithStatus(statusNames, old(store)[id], text).value]
    {
      if id !in store {
        return Fail(NotFound(id));
      }
      var app := store[id];
      var status := ValueOf(statusNames, text);
      if status.None? {
        return Fail(InvalidStatus(text));
      }
      app := app.(status := status.value);
      store := store[id := app];
      r := Pass;
    }

    /** Applies the recognised keys of the request one at a time, in the order
        amount, tenure, review message, status, user, product, vendor, and
        saves the record; a bad status name fails before the save. */
    method PartialUpdateLoanApplication(id: int, updates: Patch) returns (r: Outcome)
      requires Valid()
      modifies this`store
      ensures Valid()
      ensures id !in old(store) ==> r == Fail(NotFound(id)) && store == old(store)
      ensures id in old(store) && Patched(statusNames, old(store)[id], updates).Failure? ==>
                r == Fail(Patched(statusNames, old(store)[id], updates).error) && store == old(store)
      ensures id in old(store) && Patched(statusNames, old(store)[id], updates).Success? ==>
                r == Pass && store == old(store)[id := Patched(statusNames, old(store)[id], updates).value]
    {
      if id !in store {
        return Fail(NotFound(id));
      }
      var app := store[id];
      ghost var patched := Patched(statusNames, app, updates);
      assert Declared(statusNames, app.status);

      if updates.amountRequired.Some? {
        app := app.(amountRequired := updates.amountRequired.value);
      }
      if updates.tenure.Some? {
        app := app.(tenure := updates.tenure.value);
      }
      if updates.reviewMessage.Some? {
        app := app.(reviewMessage := updates.reviewMessage.value);
      }
      if updates.status.Some? {
        var status := ValueOf(statusNames, updates.status.value);
        if status.None? {
          return Fail(InvalidStatus(updates.status.value));
        }
        app := app.(status := status.value);
      }
      if updates.user.Some? {
        app := app.(user := User(updates.user.value, map[]));
      }
      if updates.product.Some? {
        app := app.(product := LoanProduct(updates.product.value, map[]));
      }
      if updates.vendor.Some? {
        app := app.(vendor := Vendor(updates.vendor.value, map[]));
      }

      assert patched.Success? && app == patched.value;
      assert app.id == id && Declared(statusNames, app.status);
      store := store[id := app];
      r := Pass;
    }
  }
}
