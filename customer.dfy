/**
 * The customer service (services/customer/main.py): the customer table with
 * its unique e-mail column, partial updates, deletion, the searched and
 * paged listing, and the one-profile-per-customer upsert.
 */
module Customers {
  import opened Wrappers
  import opened Text

  datatype Customer = Customer(id: int, name: string, email: string, phone: string, address: Option<string>)

  /** A CustomerCreate body. */
  datatype CustomerData = CustomerData(name: string, email: string, phone: string, address: Option<string>)

  /** A CustomerUpdate body: None for a field the request did not set. */
  datatype CustomerUpdate = CustomerUpdate(name: Option<string>, email: Option<string>, phone: Option<string>,
                                           address: Option<string>)

  /** A customer profile; dates are day numbers. */
  datatype Profile = Profile(id: int, customerId: int, dateOfBirth: Option<int>, gender: Option<string>,
                             nationality: Option<string>, idCard: Option<string>, notes: Option<string>)

  /** A CustomerProfileCreate body (its own customer_id is ignored): None for a field the request did not set. */
  datatype ProfileData = ProfileData(dateOfBirth: Option<int>, gender: Option<string>, nationality: Option<string>,
                                     idCard: Option<string>, notes: Option<string>)

  /** Only the fields the update sets change; the id never does. */
  function ApplyCustomerUpdate(c: Customer, u: CustomerUpdate): (r: Customer)
    ensures r.id == c.id
    ensures r.name == (if u.name.Some? then u.name.value else c.name)
    ensures r.email == (if u.email.Some? then u.email.value else c.email)
    ensures r.phone == (if u.phone.Some? then u.phone.value else c.phone)
    ensures r.address == (if u.address.Some? then u.address else c.address)
  {
    c.(name := if u.name.Some? then u.name.value else c.name,
       email := if u.email.Some? then u.email.value else c.email,
       phone := if u.phone.Some? then u.phone.value else c.phone,
       address := if u.address.Some? then u.address else c.address)
  }

  /** An update that sets nothing changes nothing, and applying an update twice is applying it once. */
  lemma CustomerUpdateIdempotent(c: Customer, u: CustomerUpdate)
    ensures ApplyCustomerUpdate(c, CustomerUpdate(None, None, None, None)) == c
    ensures ApplyCustomerUpdate(ApplyCustomerUpdate(c, u), u) == ApplyCustomerUpdate(c, u)
  {
  }

  /** The position of the customer with id `id`, if any. */
  function Find(cs: seq<Customer>, id: int): (r: Option<nat>)
    ensures r.None? <==> forall i :: 0 <= i < |cs| ==> cs[i].id != id
    ensures r.Some? ==> r.value < |cs| && cs[r.value].id == id
  {
    if cs == [] then None
    else if cs[0].id == id then Some(0)
    else match Find(cs[1..], id)
      case None => None
      case Some(k) => Some(k + 1)
  }

  /** Some stored customer has id `id`. */
  predicate HasCustomer(cs: seq<Customer>, id: int)
  {
    exists i :: 0 <= i < |cs| && cs[i].id == id
  }

  /** Some customer other than `exceptId` already uses `email`. */
  predicate EmailTaken(cs: seq<Customer>, email: string, exceptId: Option<int>)
  {
    exists i :: 0 <= i < |cs| && cs[i].email == email && Some(cs[i].id) != exceptId
  }

  /** `column.ilike("%search%")`: a case-insensitive substring test. */
  predicate ILikeContains(column: string, search: string)
  {
    Contains(Lower(column), Lower(search))
  }

  /** The search filter: the term occurs, ignoring case, in the name, the e-mail or the phone. */
  predicate MatchesSearch(c: Customer, search: string)
  {
    ILikeContains(c.name, search) || ILikeContains(c.email, search) || ILikeContains(c.phone, search)
  }

  lemma LowerUpper(s: string)
    ensures Lower(Upper(s)) == Lower(s)
  {
    assert forall i :: 0 <= i < |s| ==> LowerChar(UpperChar(s[i])) == LowerChar(s[i]);
  }

  /** Upper- or lower-casing the search term does not change which customers match. */
  lemma SearchIgnoresCase(c: Customer, search: string)
    ensures MatchesSearch(c, Upper(search)) == MatchesSearch(c, search)
    ensures MatchesSearch(c, Lower(search)) == MatchesSearch(c, search)
  {
    LowerUpper(search);
    assert Lower(Lower(search)) == Lower(search) by {
      assert forall i :: 0 <= i < |search| ==> LowerChar(LowerChar(search[i])) == LowerChar(search[i]);
    }
  }

  /** The customers the search keeps, in table order; an absent or empty term keeps them all. */
  function SearchHits(cs: seq<Customer>, search: Option<string>): (r: seq<Customer>)
    ensures |r| <= |cs|
    ensures !TruthyString(search) ==> r == cs
    ensures forall c :: c in r <==> c in cs && (TruthyString(search) ==> MatchesSearch(c, search.value))
  {
    if cs == [] then []
    else
      var rest := SearchHits(cs[1..], search);
      if !TruthyString(search) || MatchesSearch(cs[0], search.value) then [cs[0]] + rest else rest
  }

  /**
   * get_customers: the search, then `offset(skip).limit(limit)`: at most
   * `limit` hits, starting with hit number `skip`.
   */
  function ListCustomers(cs: seq<Customer>, skip: nat, limit: nat, search: Option<string>): (r: seq<Customer>)
    ensures |r| <= limit
    ensures var hits := SearchHits(cs, search);
      && (skip >= |hits| ==> r == [])
      && (skip < |hits| ==> |r| == (if skip + limit <= |hits| then limit else |hits| - skip))
      && forall i :: 0 <= i < |r| ==> r[i] == hits[skip + i]
  {
    var hits := SearchHits(cs, search);
    if skip >= |hits| then []
    else if skip + limit <= |hits| then hits[skip..skip + limit]
    else hits[skip..]
  }

  /** Listed customers are stored customers that match the term. */
  lemma ListedMatch(cs: seq<Customer>, skip: nat, limit: nat, search: string, c: Customer)
    requires search != [] && c in ListCustomers(cs, skip, limit, Some(search))
    ensures c in cs && MatchesSearch(c, search)
  {
    var hits := SearchHits(cs, Some(search));
    var r := ListCustomers(cs, skip, limit, Some(search));
    var i :| 0 <= i < |r| && r[i] == c;
    assert hits[skip + i] in hits;
  }

  /** Only the profile fields the request sets change. */
  function ApplyProfile(p: Profile, d: ProfileData): (r: Profile)
    ensures r.id == p.id && r.customerId == p.customerId
    ensures r.dateOfBirth == (if d.dateOfBirth.Some? then d.dateOfBirth else p.dateOfBirth)
    ensures r.gender == (if d.gender.Some? then d.gender else p.gender)
    ensures r.nationality == (if d.nationality.Some? then d.nationality else p.nationality)
    ensures r.idCard == (if d.idCard.Some? then d.idCard else p.idCard)
    ensures r.notes == (if d.notes.Some? then d.notes else p.notes)
  {
    p.(dateOfBirth := if d.dateOfBirth.Some? then d.dateOfBirth else p.dateOfBirth,
       gender := if d.gender.Some? then d.gender else p.gender,
       nationality := if d.nationality.Some? then d.nationality else p.nationality,
       idCard := if d.idCard.Some? then d.idCard else p.idCard,
       notes := if d.notes.Some? then d.notes else p.notes)
  }

  /** The profile a first upsert creates: every field as given. */
  function NewProfile(id: int, customerId: int, d: ProfileData): (r: Profile)
    ensures r.id == id && r.customerId == customerId
    ensures ApplyProfile(r, d) == r
  {
    Profile(id, customerId, d.dateOfBirth, d.gender, d.nationality, d.idCard, d.notes)
  }

  /** Upserting the same data twice leaves the profile as the first upsert did. */
  lemma UpsertTwiceIsOnce(p: Profile, d: ProfileData)
    ensures ApplyProfile(ApplyProfile(p, d), d) == ApplyProfile(p, d)
  {
  }

  /** Another profile already uses this identity-card number. */
  predicate IdCardTaken(profiles: map<int, Profile>, idCard: Option<string>, customerId: int)
  {
    idCard.Some? && exists k :: k in profiles && k != customerId && profiles[k].idCard == idCard
  }

  predicate IdsBelow(cs: seq<Customer>, nextId: int)
  {
    forall i :: 0 <= i < |cs| ==> 0 < cs[i].id < nextId
  }

  predicate IdsIncreasing(cs: seq<Customer>)
  {
    forall a, b :: 0 <= a < b < |cs| ==> cs[a].id < cs[b].id
  }

  predicate EmailsUnique(cs: seq<Customer>)
  {
    forall a, b :: 0 <= a < |cs| && 0 <= b < |cs| && a != b ==> cs[a].email != cs[b].email
  }

  /** Every profile is stored under the id of an existing customer. */
  predicate ProfilesOwned(profiles: map<int, Profile>, cs: seq<Customer>, nextProfileId: int)
  {
    forall k :: k in profiles ==> profiles[k].customerId == k && HasCustomer(cs, k) && 0 < profiles[k].id < nextProfileId
  }

  predicate IdCardsUnique(profiles: map<int, Profile>)
  {
    forall k1, k2 :: k1 in profiles && k2 in profiles && k1 != k2 && profiles[k1].idCard.Some? ==>
      profiles[k1].idCard != profiles[k2].idCard
  }

  /** The customer table and the profile table, keyed by customer id. */
  class CustomerService {
    var customers: seq<Customer>
    var profiles: map<int, Profile>
    var nextId: int
    var nextProfileId: int

    /**
     * Customer ids increase along the table and stay below the next id;
     * e-mails are unique; every profile belongs to a stored customer and is
     * stored under that customer's id (at most one each); identity-card
     * numbers, where present, are unique.
     */
    predicate Valid()
      reads this
    {
      && 0 < nextId && 0 < nextProfileId
      && IdsBelow(customers, nextId) && IdsIncreasing(customers) && EmailsUnique(customers)
      && ProfilesOwned(profiles, customers, nextProfileId) && IdCardsUnique(profiles)
    }

    constructor ()
      ensures Valid() && customers == [] && profiles == map[]
    {
      customers := [];
      profiles := map[];
      nextId := 1;
      nextProfileId := 1;
    }

    /** create_customer: 400 when the e-mail is already used; otherwise the customer is appended under a fresh id. */
    method CreateCustomer(d: CustomerData) returns (r: Result<Customer>)
      requires Valid()
      modifies this
      ensures Valid()
      ensures EmailTaken(old(customers), d.email, None) ==>
        r == Fail(400, "Customer with this email already exists") && unchanged(this)
      ensures !EmailTaken(old(customers), d.email, None) ==>
        && r == Ok(Customer(old(nextId), d.name, d.email, d.phone, d.address))
        && customers == old(customers) + [r.value]
        && profiles == old(profiles)
    {
      if EmailTaken(customers, d.email, None) {
        return Fail(400, "Customer with this email already exists");
      }
      var c := Customer(nextId, d.name, d.email, d.phone, d.address);
      forall k | k in profiles
        ensures HasCustomer(customers + [c], k)
      {
        var j :| 0 <= j < |customers| && customers[j].id == k;
        assert (customers + [c])[j].id == k;
      }
      customers := customers + [c];
      nextId := nextId + 1;
      r := Ok(c);
    }

    /** get_customer: the stored customer, or 404. */
    method GetCustomer(id: int) returns (r: Result<Customer>)
      requires Valid()
      ensures r.Ok? <==> Find(customers, id).Some?
      ensures r.Err? ==> r == Fail(404, "Customer not found")
      ensures r.Ok? ==> r.value in customers && r.value.id == id
    {
      var k := Find(customers, id);
      if k.None? {
        return Fail(404, "Customer not found");
      }
      return Ok(customers[k.value]);
    }

    /**
     * update_customer: 404, then the supplied fields are written. The handler
     * does not check the new e-mail; the unique column rejects one that
     * another customer uses when the change is committed (500).
     */
    method UpdateCustomer(id: int, u: CustomerUpdate) returns (r: Result<Customer>)
      requires Valid()
      modifies this
      ensures Valid()
      ensures Find(old(customers), id).None? ==> r == Fail(404, "Customer not found") && unchanged(this)
      ensures Find(old(customers), id).Some? && u.email.Some? && EmailTaken(old(customers), u.email.value, Some(id)) ==>
        r.Err? && r.error.status == 500 && unchanged(this)
      ensures r.Ok? <==>
        Find(old(customers), id).Some? && !(u.email.Some? && EmailTaken(old(customers), u.email.value, Some(id)))
      ensures r.Ok? ==>
        var k := Find(old(customers), id).value;
        && r.value == ApplyCustomerUpdate(old(customers)[k], u)
        && customers == old(customers)[k := r.value]
        && profiles == old(profiles)
    {
      var k := Find(customers, id);
      if k.None? {
        return Fail(404, "Customer not found");
      }
      if u.email.Some? && EmailTaken(customers, u.email.value, Some(id)) {
        return Fail(500, "Internal Server Error");
      }
      var updated := ApplyCustomerUpdate(customers[k.value], u);
      customers := customers[k.value := updated];
      forall k1 | k1 in profiles
        ensures HasCustomer(customers, k1)
      {
        var j :| 0 <= j < |old(customers)| && old(customers)[j].id == k1;
        assert customers[j].id == k1;
      }
      r := Ok(updated);
    }

    /**
     * delete_customer: 404, otherwise that customer alone is removed. The
     * profile relationship has no delete cascade, so deleting a customer
     * that has a profile makes the ORM null the profile's NOT NULL
     * customer_id, and the commit fails (500).
     */
    method DeleteCustomer(id: int) returns (r: Result<()>)
      requires Valid()
      modifies this
      ensures Valid()
      ensures Find(old(customers), id).None? ==> r == Fail(404, "Customer not found") && unchanged(this)
      ensures Find(old(customers), id).Some? && id in old(profiles) ==> r.Err? && r.error.status == 500 && unchanged(this)
      ensures r.Ok? <==> Find(old(customers), id).Some? && id !in old(profiles)
      ensures r.Ok? ==>
        && customers == RemoveAt(old(customers), Find(old(customers), id).value)
        && (forall c :: c in customers <==> c in old(customers) && c.id != id)
        && profiles == old(profiles)
    {
      var k := Find(customers, id);
      if k.None? {
        return Fail(404, "Customer not found");
      }
      if id in profiles {
        return Fail(500, "Internal Server Error");
      }
      var i := k.value;
      RemoveKeepsTable(customers, i, profiles, nextId, nextProfileId);
      RemoveAtExactly(customers, i);
      customers := RemoveAt(customers, i);
      r := Ok(());
    }

    /**
     * create_customer_profile: 404 for a missing customer; an existing
     * profile gets the supplied fields, otherwise a profile is created. An
     * identity-card number another profile holds breaks its unique column (500).
     */
    method UpsertProfile(customerId: int, d: ProfileData) returns (r: Result<Profile>)
      requires Valid()
      modifies this
      ensures Valid()
      ensures Find(old(customers), customerId).None? ==> r == Fail(404, "Customer not found") && unchanged(this)
      ensures Find(old(customers), customerId).Some? && IdCardTaken(old(profiles), d.idCard, customerId) ==>
        r.Err? && r.error.status == 500 && unchanged(this)
      ensures r.Ok? <==> Find(old(customers), customerId).Some? && !IdCardTaken(old(profiles), d.idCard, customerId)
      ensures r.Ok? ==>
        && profiles == old(profiles)[customerId := r.value]
        && customers == old(customers)
        && r.value.customerId == customerId
        && (customerId in old(profiles) ==> r.value == ApplyProfile(old(profiles)[customerId], d))
        && (customerId !in old(profiles) ==> r.value == NewProfile(old(nextProfileId), customerId, d))
    {
      if Find(customers, customerId).None? {
        return Fail(404, "Customer not found");
      }
      if IdCardTaken(profiles, d.idCard, customerId) {
        return Fail(500, "Internal Server Error");
      }
      var p: Profile;
      if customerId in profiles {
        p := ApplyProfile(profiles[customerId], d);
      } else {
        p := NewProfile(nextProfileId, customerId, d);
        nextProfileId := nextProfileId + 1;
      }
      profiles := profiles[customerId := p];
      r := Ok(p);
    }
  }

  /** The table with position `i` dropped. */
  function RemoveAt(cs: seq<Customer>, i: nat): (r: seq<Customer>)
    requires i < |cs|
    ensures |r| == |cs| - 1
    ensures forall j :: 0 <= j < i ==> r[j] == cs[j]
    ensures forall j :: i <= j < |r| ==> r[j] == cs[j + 1]
  {
    cs[..i] + cs[i + 1..]
  }

  /** Dropping a customer without a profile keeps every table invariant. */
  lemma RemoveKeepsTable(cs: seq<Customer>, i: nat, profiles: map<int, Profile>, nextId: int, nextProfileId: int)
    requires i < |cs| && cs[i].id !in profiles
    requires IdsBelow(cs, nextId) && IdsIncreasing(cs) && EmailsUnique(cs) && ProfilesOwned(profiles, cs, nextProfileId)
    ensures var r := RemoveAt(cs, i);
      IdsBelow(r, nextId) && IdsIncreasing(r) && EmailsUnique(r) && ProfilesOwned(profiles, r, nextProfileId)
  {
    var r := RemoveAt(cs, i);
    forall a, b | 0 <= a < b < |r|
      ensures r[a].id < r[b].id
    {
      var a' := if a < i then a else a + 1;
      var b' := if b < i then b else b + 1;
      assert r[a] == cs[a'] && r[b] == cs[b'];
    }
    forall a, b | 0 <= a < |r| && 0 <= b < |r| && a != b
      ensures r[a].email != r[b].email
    {
      var a' := if a < i then a else a + 1;
      var b' := if b < i then b else b + 1;
      assert r[a] == cs[a'] && r[b] == cs[b'];
    }
    forall k | k in profiles
      ensures HasCustomer(r, k)
    {
      var j :| 0 <= j < |cs| && cs[j].id == k;
      assert j != i;
      if j < i {
        assert r[j].id == k;
      } else {
        assert r[j - 1].id == k;
      }
    }
  }

  /** With distinct ids, dropping position `i` drops exactly the customer with that id. */
  lemma RemoveAtExactly(cs: seq<Customer>, i: nat)
    requires i < |cs|
    requires IdsIncreasing(cs)
    ensures forall c :: c in RemoveAt(cs, i) <==> c in cs && c.id != cs[i].id
  {
    var r := RemoveAt(cs, i);
    forall c | c in cs && c.id != cs[i].id
      ensures c in r
    {
      var j :| 0 <= j < |cs| && cs[j] == c;
      if j < i {
        assert r[j] == c;
      } else {
        assert r[j - 1] == c;
      }
    }
    forall c | c in r
      ensures c in cs && c.id != cs[i].id
    {
      var j :| 0 <= j < |r| && r[j] == c;
      if j < i {
        assert c == cs[j];
      } else {
        assert c == cs[j + 1];
      }
    }
  }
}
