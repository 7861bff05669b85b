/** The checkout handlers: placing an order, deleting one that is not
    completed, and moving an order between the three accepted statuses, as
    its owner or as an admin. The admin handlers trust the `is-admin` request
    header, which must be exactly the text "true". */
module CheckoutController {
  import opened Common
  import opened Records
  import opened Store

  /** The request body of addCheckout. A field that is absent reads as the
      empty text or as 0, both of which the handler treats as missing. */
  datatype CheckoutForm = CheckoutForm(
    fname: string,
    lname: string,
    street: string,
    city: string,
    state: string,
    zipcode: string,
    total: int,
    mobile: int,
    userMail: string,
    items: seq<CheckoutItem>)

  /** No field is falsy and at least one item is ordered. */
  predicate Complete(f: CheckoutForm) {
    && f.fname != "" && f.lname != "" && f.street != "" && f.city != ""
    && f.state != "" && f.zipcode != "" && f.total != 0 && f.mobile != 0
    && f.userMail != "" && |f.items| > 0
  }

  /** The stored order for a complete form: the caller owns it and it starts
      out pending. */
  function OrderOf(id: Id, f: CheckoutForm, userId: Id): (c: Checkout)
    ensures c.id == id && c.userId == userId && c.status == DefaultCheckoutStatus
    ensures c.total == f.total && c.items == f.items && c.userMail == f.userMail
  {
    Checkout(id, f.fname, f.lname, f.street, f.city, f.state, f.zipcode,
             f.total, f.mobile, f.userMail, userId, DefaultCheckoutStatus, f.items)
  }

  /** `req.headers['is-admin'] === 'true'` */
  predicate AdminHeader(header: Option<string>) {
    header == Some("true")
  }

  /** Places an order for the caller; every field is required. */
  method AddCheckout(db: Database, user: Option<Id>, f: CheckoutForm)
    returns (res: Response, created: Option<Checkout>)
    requires db.Valid()
    modifies db
    ensures db.Valid()
    ensures user.None? ==> res == Unauthorized
    ensures user.Some? && !Complete(f) ==> res == BadRequest
    ensures user.Some? && Complete(f) ==>
      && res == Created
      && created == Some(OrderOf(old(db.nextId), f, user.value))
      && db.State() == old(db.State()).(checkouts := old(db.checkouts) + [created.value], nextId := old(db.nextId) + 1)
    ensures res != Created ==> db.State() == old(db.State()) && created.None?
  {
    if user.None? {
      return Unauthorized, None;
    }
    if !Complete(f) {
      return BadRequest, None;
    }
    var c := OrderOf(db.nextId, f, user.value);
    ValidAfterCheckoutAppend(db.State(), c);
    db.checkouts, db.nextId := db.checkouts + [c], db.nextId + 1;
    res, created := Created, Some(c);
  }

  /** Deletes the order found at index `k`, unless it is completed. */
  method DeleteFound(db: Database, k: Option<nat>) returns (res: Response)
    requires db.Valid()
    requires k.Some? ==> k.value < |db.checkouts|
    modifies db
    ensures db.Valid()
    ensures k.None? ==> res == NotFound
    ensures k.Some? && old(db.checkouts)[k.value].status == "Completed" ==> res == BadRequest
    ensures k.Some? && old(db.checkouts)[k.value].status != "Completed" ==>
      res == Ok && db.State() == old(db.State()).(checkouts := RemoveAt(old(db.checkouts), k.value))
    ensures res != Ok ==> db.State() == old(db.State())
  {
    if k.None? {
      return NotFound;
    }
    if db.checkouts[k.value].status == "Completed" {
      return BadRequest;
    }
    ValidAfterCheckoutRemove(db.State(), k.value);
    db.checkouts := RemoveAt(db.checkouts, k.value);
    res := Ok;
  }

  /** The owner deletes one of their own orders that is not completed. */
  method DeleteCheckout(db: Database, user: Option<Id>, id: Id) returns (res: Response)
    requires db.Valid()
    modifies db
    ensures db.Valid()
    ensures user.None? ==> res == Unauthorized
    ensures user.Some? ==>
      match OwnCheckoutIndex(old(db.checkouts), id, user.value)
      case None => res == NotFound
      case Some(k) =>
        && (old(db.checkouts)[k].status == "Completed" ==> res == BadRequest)
        && (old(db.checkouts)[k].status != "Completed" ==>
              res == Ok && db.State() == old(db.State()).(checkouts := RemoveAt(old(db.checkouts), k)))
    ensures res != Ok ==> db.State() == old(db.State())
  {
    if user.None? {
      return Unauthorized;
    }
    // deleteOne({ _id, userId }) removes the document findOne just found.
    res := DeleteFound(db, OwnCheckoutIndex(db.checkouts, id, user.value));
  }

  /** An admin deletes any order that is not completed. */
  method AdminDeleteCheckout(db: Database, header: Option<string>, id: Id) returns (res: Response)
    requires db.Valid()
    modifies db
    ensures db.Valid()
    ensures !AdminHeader(header) ==> res == Forbidden
    ensures AdminHeader(header) ==>
      match CheckoutIndex(old(db.checkouts), id)
      case None => res == NotFound
      case Some(k) =>
        && (old(db.checkouts)[k].status == "Completed" ==> res == BadRequest)
        && (old(db.checkouts)[k].status != "Completed" ==>
              res == Ok && db.State() == old(db.State()).(checkouts := RemoveAt(old(db.checkouts), k)))
    ensures res != Ok ==> db.State() == old(db.State())
  {
    if !AdminHeader(header) {
      return Forbidden;
    }
    res := DeleteFound(db, CheckoutIndex(db.checkouts, id));
  }

  /** Sets the status of the order found at index `k` to an accepted one. */
  method SetFoundStatus(db: Database, k: Option<nat>, status: string) returns (res: Response)
    requires db.Valid() && status in CheckoutStatuses
    requires k.Some? ==> k.value < |db.checkouts|
    modifies db
    ensures db.Valid()
    ensures k.None? ==> res == NotFound && db.State() == old(db.State())
    ensures k.Some? ==>
      && res == Ok
      && db.State() == old(db.State()).(checkouts := old(db.checkouts)[k.value := old(db.checkouts)[k.value].(status := status)])
  {
    if k.None? {
      return NotFound;
    }
    ValidAfterCheckoutStatus(db.State(), k.value, status);
    db.checkouts := db.checkouts[k.value := db.checkouts[k.value].(status := status)];
    res := Ok;
  }

  /** The owner moves one of their orders to one of the three statuses,
      in any direction. */
  method StatusUpdate(db: Database, user: Option<Id>, id: Id, status: string) returns (res: Response)
    requires db.Valid()
    modifies db
    ensures db.Valid()
    ensures user.None? ==> res == Unauthorized
    ensures user.Some? && status !in CheckoutStatuses ==> res == BadRequest
    ensures user.Some? && status in CheckoutStatuses ==>
      match OwnCheckoutIndex(old(db.checkouts), id, user.value)
      case None => res == NotFound
      case Some(k) =>
        res == Ok && db.State() == old(db.State()).(checkouts := old(db.checkouts)[k := old(db.checkouts)[k].(status := status)])
    ensures res != Ok ==> db.State() == old(db.State())
  {
    if user.None? {
      return Unauthorized;
    }
    if status !in CheckoutStatuses {
      return BadRequest;
    }
    res := SetFoundStatus(db, OwnCheckoutIndex(db.checkouts, id, user.value), status);
  }

  /** An admin moves any order to one of the three statuses. */
  method AdminStatusUpdate(db: Database, header: Option<string>, id: Id, status: string) returns (res: Response)
    requires db.Valid()
    modifies db
    ensures db.Valid()
    ensures !AdminHeader(header) ==> res == Forbidden
    ensures AdminHeader(header) && status !in CheckoutStatuses ==> res == BadRequest
    ensures AdminHeader(header) && status in CheckoutStatuses ==>
      match CheckoutIndex(old(db.checkouts), id)
      case None => res == NotFound
      case Some(k) =>
        res == Ok && db.State() == old(db.State()).(checkouts := old(db.checkouts)[k := old(db.checkouts)[k].(status := status)])
    ensures res != Ok ==> db.State() == old(db.State())
  {
    if !AdminHeader(header) {
      return Forbidden;
    }
    if status !in CheckoutStatuses {
      return BadRequest;
    }
    res := SetFoundStatus(db, CheckoutIndex(db.checkouts, id), status);
  }

  /** A status write does not move an order in either lookup. */
  lemma LookupsIgnoreStatus(cs: seq<Checkout>, k: nat, status: string, id: Id, userId: Id)
    requires k < |cs|
    ensures OwnCheckoutIndex(cs[k := cs[k].(status := status)], id, userId) == OwnCheckoutIndex(cs, id, userId)
    ensures CheckoutIndex(cs[k := cs[k].(status := status)], id) == CheckoutIndex(cs, id)
  {
    var cs' := cs[k := cs[k].(status := status)];
    FindFirstPointwise(cs, cs', (c: Checkout) => c.id == id && c.userId == userId);
    FindFirstPointwise(cs, cs', (c: Checkout) => c.id == id);
  }

  /** The owner may move a completed order back to "Pending" (StatusUpdate
      accepts every listed status in any direction), after which DeleteCheckout
      finds the same order and no longer refuses it: the rule that completed
      orders cannot be deleted binds for one request only. */
  lemma ReopenedOrderIsDeletable(cs: seq<Checkout>, id: Id, userId: Id)
    requires OwnCheckoutIndex(cs, id, userId).Some?
    ensures var k := OwnCheckoutIndex(cs, id, userId).value;
      var reopened := cs[k := cs[k].(status := "Pending")];
      && "Pending" in CheckoutStatuses
      && OwnCheckoutIndex(reopened, id, userId) == Some(k)
      && reopened[k].status != "Completed"
  {
    var k := OwnCheckoutIndex(cs, id, userId).value;
    LookupsIgnoreStatus(cs, k, "Pending", id, userId);
  }
}
