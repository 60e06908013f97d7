/** The trading contract: sellers list quantities at a price per unit, may
    cancel their own active listings, and buyers take part or all of an
    active listing. No balance moves here. */
module Marketplace {
  import opened Outcome

  /** A sell order; `amount` is what is left to sell. */
  datatype Listing = Listing(seller: Account, amount: int, pricePerUnit: int, isActive: bool)

  datatype State = State(
    nonce: nat,                               // the last listing id handed out
    listings: map<int, Listing>)

  /** The state before any call. */
  const Initial: State := State(0, map[])

  /** Listings are stored under 1..nonce; no listing holds a negative
      amount, and an active one has something left to sell. */
  ghost predicate Valid(s: State)
  {
    && Dense(s.listings, s.nonce)
    && (forall id :: id in s.listings ==>
          && s.listings[id].amount >= 0
          && (s.listings[id].isActive ==> s.listings[id].amount > 0))
  }

  /** `create-listing(amount, pricePerUnit)` called by `sender`. */
  function CreateListing(s: State, sender: Account, amount: int, pricePerUnit: int): (r: Step<State, nat>)
    ensures r.result.Ok? <==> amount > 0
    ensures r.result.Err? ==> r.result.error == InvalidAmount && r.state == s
    ensures r.result.Ok? ==>
      && r.result.value == s.nonce + 1
      && r.state.nonce == r.result.value
      && Stores(s.listings, r.state.listings, r.result.value, Listing(sender, amount, pricePerUnit, true))
  {
    if amount <= 0 then Step(Err(InvalidAmount), s)
    else
      var id := s.nonce + 1;
      Step(Ok(id), State(id, s.listings[id := Listing(sender, amount, pricePerUnit, true)]))
  }

  /** `cancel-listing(id)` called by `sender`. A missing listing, someone
      else's listing and an inactive listing are reported alike. */
  function CancelListing(s: State, sender: Account, id: int): (r: Step<State, ()>)
    ensures r.result.Ok? <==> id in s.listings && s.listings[id].seller == sender && s.listings[id].isActive
    ensures r.result.Err? ==> r.result.error == NotAuthorizedOrListingNotFound && r.state == s
    ensures r.state.nonce == s.nonce
    ensures r.result.Ok? ==>
      var l := s.listings[id];
      Stores(s.listings, r.state.listings, id, Listing(l.seller, l.amount, l.pricePerUnit, false))
  {
    if id !in s.listings || s.listings[id].seller != sender || !s.listings[id].isActive then
      Step(Err(NotAuthorizedOrListingNotFound), s)
    else
      Step(Ok(()), s.(listings := s.listings[id := s.listings[id].(isActive := false)]))
  }

  /** `buy-rec(id, buyAmount)` called by any buyer: takes `buyAmount` off
      the listing, which stays active only while something is left. */
  function BuyRec(s: State, buyer: Account, id: int, buyAmount: int): (r: Step<State, ()>)
    ensures r.result.Ok? <==> id in s.listings && s.listings[id].isActive && buyAmount <= s.listings[id].amount
    ensures r.result.Err? ==> r.result.error == InvalidListingOrInsufficientAmount && r.state == s
    ensures r.state.nonce == s.nonce
    ensures r.result.Ok? ==>
      var l := s.listings[id];
      var left := l.amount - buyAmount;
      && left >= 0
      && Stores(s.listings, r.state.listings, id, Listing(l.seller, left, l.pricePerUnit, left > 0))
  {
    if id !in s.listings || !s.listings[id].isActive || buyAmount > s.listings[id].amount then
      Step(Err(InvalidListingOrInsufficientAmount), s)
    else
      var listing := s.listings[id];
      var left := listing.amount - buyAmount;
      Step(Ok(()), s.(listings := s.listings[id := listing.(amount := left, isActive := left > 0)]))
  }

  /** `get-listing(id)`: never fails; an unknown id yields `None`. */
  function GetListing(s: State, id: int): (r: Result<Option<Listing>>)
    ensures r.Ok?
    ensures r.value.Some? <==> id in s.listings
    ensures r.value.Some? ==> r.value.value == s.listings[id]
    ensures Valid(s) ==> (r.value.Some? <==> 1 <= id <= s.nonce)
  {
    if id in s.listings then Ok(Some(s.listings[id])) else Ok(None)
  }

  /** The methods of the contract. */
  datatype Op =
    | Create(amount: int, pricePerUnit: int)
    | Cancel(id: int)
    | Buy(id: int, amount: int)
    | ListingQuery(id: int)
    | Unknown(name: string)

  /** The `value` of a successful call. */
  datatype Reply = NewId(id: nat) | Done | Found(listing: Option<Listing>)

  /** One call, dispatched on its method. */
  function Call(s: State, sender: Account, op: Op): (r: Step<State, Reply>)
    ensures r.result.Err? ==> r.state == s
    ensures op.ListingQuery? ==> r.result.Ok? && r.state == s
    ensures op.Unknown? ==> r.result == Err(MethodNotFound)
    ensures !op.Create? ==> r.state.nonce == s.nonce && r.state.listings.Keys == s.listings.Keys
  {
    match op
    case Create(amount, pricePerUnit) =>
      var step := CreateListing(s, sender, amount, pricePerUnit);
      Step(if step.result.Ok? then Ok(NewId(step.result.value)) else Err(step.result.error), step.state)
    case Cancel(id) =>
      var step := CancelListing(s, sender, id);
      Step(if step.result.Ok? then Ok(Done) else Err(step.result.error), step.state)
    case Buy(id, amount) =>
      var step := BuyRec(s, sender, id, amount);
      Step(if step.result.Ok? then Ok(Done) else Err(step.result.error), step.state)
    case ListingQuery(id) =>
      Step(Ok(Found(GetListing(s, id).value)), s)
    case Unknown(_) =>
      Step(Err(MethodNotFound), s)
  }

  /** A caller together with what it calls. */
  datatype Invocation = Invocation(sender: Account, op: Op)

  /** The state after a sequence of calls, applied in order. */
  function Run(s: State, calls: seq<Invocation>): State
    decreases |calls|
  {
    if |calls| == 0 then s
    else Run(Call(s, calls[0].sender, calls[0].op).state, calls[1..])
  }

  lemma InitialValid()
    ensures Valid(Initial)
  {
  }

  lemma CallPreservesValid(s: State, sender: Account, op: Op)
    requires Valid(s)
    ensures Valid(Call(s, sender, op).state)
  {
  }

  lemma {:induction false} RunPreservesValid(s: State, calls: seq<Invocation>)
    requires Valid(s)
    ensures Valid(Run(s, calls))
    decreases |calls|
  {
    if |calls| > 0 {
      CallPreservesValid(s, calls[0].sender, calls[0].op);
      RunPreservesValid(Call(s, calls[0].sender, calls[0].op).state, calls[1..]);
    }
  }

  /** From `s` to `s'` every listing survives with its seller and price, and
      an inactive listing is frozen: it never becomes active again and its
      amount does not move. */
  ghost predicate Evolves(s: State, s': State)
  {
    && s.nonce <= s'.nonce
    && (forall id :: id in s.listings ==>
          && id in s'.listings
          && s'.listings[id].seller == s.listings[id].seller
          && s'.listings[id].pricePerUnit == s.listings[id].pricePerUnit
          && (!s.listings[id].isActive ==> s'.listings[id] == s.listings[id]))
  }

  /** Under `Valid`, creation never overwrites an existing listing. */
  lemma CallEvolves(s: State, sender: Account, op: Op)
    requires Valid(s)
    ensures Evolves(s, Call(s, sender, op).state)
  {
  }

  lemma {:induction false} RunEvolves(s: State, calls: seq<Invocation>)
    requires Valid(s)
    ensures Evolves(s, Run(s, calls))
    decreases |calls|
  {
    if |calls| > 0 {
      var s1 := Call(s, calls[0].sender, calls[0].op).state;
      CallEvolves(s, calls[0].sender, calls[0].op);
      CallPreservesValid(s, calls[0].sender, calls[0].op);
      RunEvolves(s1, calls[1..]);
    }
  }

  /** Buying everything that is left closes the listing, after which every
      further purchase fails. */
  lemma SellOutCloses(s: State, buyer: Account, id: int, buyer': Account, more: int)
    requires id in s.listings && s.listings[id].isActive
    ensures var r := BuyRec(s, buyer, id, s.listings[id].amount);
      && r.result.Ok?
      && !r.state.listings[id].isActive
      && r.state.listings[id].amount == 0
      && BuyRec(r.state, buyer', id, more).result == Err(InvalidListingOrInsufficientAmount)
  {
  }

  /** A successful cancellation cannot be repeated, by anyone. */
  lemma CancelTwiceFails(s: State, seller: Account, id: int, anyone: Account)
    requires CancelListing(s, seller, id).result.Ok?
    ensures var s1 := CancelListing(s, seller, id).state;
      && CancelListing(s1, anyone, id).result == Err(NotAuthorizedOrListingNotFound)
      && CancelListing(s1, anyone, id).state == s1
  {
  }

  /** The contract's own examples. */
  lemma Examples()
    ensures CreateListing(Initial, "seller1", 0, 10).result == Err(InvalidAmount)
    ensures var created := CreateListing(Initial, "seller1", 1000, 10);
      && created.result == Ok(1)
      && GetListing(created.state, 1) == Ok(Some(Listing("seller1", 1000, 10, true)))
      && CancelListing(created.state, "seller1", 1).result == Ok(())
      && CancelListing(created.state, "seller2", 1).result.Err?
      && GetListing(CancelListing(created.state, "seller2", 1).state, 1).value.value.isActive
      && BuyRec(created.state, "buyer1", 1, 500).result == Ok(())
      && GetListing(BuyRec(created.state, "buyer1", 1, 500).state, 1) == Ok(Some(Listing("seller1", 500, 10, true)))
      && BuyRec(created.state, "buyer1", 1, 1500).result.Err?
  {
  }
}
