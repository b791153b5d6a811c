/** Domain errors and identifiers. */
module Domain {

  /**
    Every id is a UUID text of 36 characters. Reading those characters as one big-endian number
    keeps their string order, so ids are naturals here and Redis' tie-break by member is `<`.
   */
  type OrderId = nat
  type DriverId = nat
  type CustomerId = nat
  type EventId = nat
  type AttemptId = nat

  /** Instants are abstract: no rule of the service compares them with a duration. */
  type Time = int

  datatype DomainError =
    | InvariantViolation(rule: string)
    | NoActiveOffer
    | NotOfferedDriver
    | ForceAssignNotAllowed
    | AssignmentNotFound
    | DriverNotAssignable
}

/** String.prototype.trim and toUpperCase on the characters the address check lets through. */
module Text {

  predicate IsWhiteSpace(c: char) {
    var n := c as int;
    || 0x09 <= n <= 0x0D || n == 0x20 || n == 0xA0 || n == 0x1680
    || 0x2000 <= n <= 0x200A || n == 0x2028 || n == 0x2029 || n == 0x202F || n == 0x205F
    || n == 0x3000 || n == 0xFEFF
  }

  /** The characters of String.prototype.trim, one by one. */
  lemma WhiteSpaceIs(c: char)
    ensures IsWhiteSpace(c) <==> c as int in {
      0x0009, 0x000A, 0x000B, 0x000C, 0x000D, 0x0020, 0x00A0, 0x1680, 0x2000, 0x2001, 0x2002, 0x2003, 0x2004, 0x2005,
      0x2006, 0x2007, 0x2008, 0x2009, 0x200A, 0x2028, 0x2029, 0x202F, 0x205F, 0x3000, 0xFEFF}
  {
  }

  function TrimStart(s: string): string {
    if s != [] && IsWhiteSpace(s[0]) then TrimStart(s[1..]) else s
  }

  function TrimEnd(s: string): string {
    if s != [] && IsWhiteSpace(s[|s| - 1]) then TrimEnd(s[..|s| - 1]) else s
  }

  function Trim(s: string): string {
    TrimEnd(TrimStart(s))
  }

  predicate Trimmed(s: string) {
    s == [] || (!IsWhiteSpace(s[0]) && !IsWhiteSpace(s[|s| - 1]))
  }

  lemma {:induction false} TrimStartRemoves(s: string)
    ensures TrimStart(s) == [] || !IsWhiteSpace(TrimStart(s)[0])
  {
    if s != [] && IsWhiteSpace(s[0]) {
      TrimStartRemoves(s[1..]);
    }
  }

  lemma {:induction false} TrimEndRemoves(s: string)
    ensures TrimEnd(s) <= s
    ensures TrimEnd(s) == [] || !IsWhiteSpace(TrimEnd(s)[|TrimEnd(s)| - 1])
  {
    if s != [] && IsWhiteSpace(s[|s| - 1]) {
      TrimEndRemoves(s[..|s| - 1]);
    }
  }

  /** The trimmed strings are exactly the fixed points of `Trim`, and `Trim` always reaches one. */
  lemma TrimIsIdempotent(s: string)
    ensures Trimmed(Trim(s))
    ensures Trim(s) == s <==> Trimmed(s)
  {
    TrimStartRemoves(s);
    TrimEndRemoves(TrimStart(s));
  }

  /** Trimming takes white space off both ends, and nothing else. */
  lemma TrimKeepsTheMiddle(s: string) returns (i: nat, j: nat)
    ensures i <= j <= |s| && Trim(s) == s[i..j]
    ensures forall k :: 0 <= k < i || j <= k < |s| ==> IsWhiteSpace(s[k])
  {
    i := TrimStartCuts(s);
    var n := TrimEndCuts(s[i..]);
    j := i + n;
    forall k | j <= k < |s| ensures IsWhiteSpace(s[k]) {
      assert s[i..][k - i] == s[k];
    }
  }

  lemma {:induction false} TrimStartCuts(s: string) returns (i: nat)
    ensures i <= |s| && TrimStart(s) == s[i..] && forall k :: 0 <= k < i ==> IsWhiteSpace(s[k])
  {
    i := 0;
    if s != [] && IsWhiteSpace(s[0]) {
      var n := TrimStartCuts(s[1..]);
      i := n + 1;
      forall k | 0 <= k < i ensures IsWhiteSpace(s[k]) {
        assert k > 0 ==> s[1..][k - 1] == s[k];
      }
    }
  }

  lemma {:induction false} TrimEndCuts(s: string) returns (j: nat)
    ensures j <= |s| && TrimEnd(s) == s[..j] && forall k :: j <= k < |s| ==> IsWhiteSpace(s[k])
  {
    j := |s|;
    if s != [] && IsWhiteSpace(s[|s| - 1]) {
      j := TrimEndCuts(s[..|s| - 1]);
    }
  }

  predicate IsLetter(c: char) {
    'a' <= c <= 'z' || 'A' <= c <= 'Z'
  }

  function UpperLetter(c: char): char {
    if 'a' <= c <= 'z' then (c as int - 32) as char else c
  }

  function ToUpper(s: string): string {
    seq(|s|, i requires 0 <= i < |s| => UpperLetter(s[i]))
  }
}

/** Addresses and item lines: validated, normalised, and written to JSON columns. */
module ValueObjects {
  import opened Wrappers
  import opened Domain
  import opened Text

  /** The constructor's argument, and also the JSON the snapshot is stored as. */
  datatype AddressFields = AddressFields(
    optLabel: Option<string>,
    street: string,
    city: string,
    country: string,
    lat: real,
    lng: real)

  predicate IsCountryCode(s: string) {
    |s| == 2 && IsLetter(s[0]) && IsLetter(s[1])
  }

  datatype AddressSnapshot = AddressSnapshot(
    optLabel: Option<string>,
    street: string,
    city: string,
    country: string,
    lat: real,
    lng: real)
  {
    static function Of(f: AddressFields): Result<AddressSnapshot, DomainError> {
      var street := Trim(f.street);
      var city := Trim(f.city);
      if street == [] then Failure(InvariantViolation("street"))
      else if city == [] then Failure(InvariantViolation("city"))
      else if !IsCountryCode(f.country) then Failure(InvariantViolation("country"))
      else if f.lat < -90.0 || f.lat > 90.0 then Failure(InvariantViolation("latitude"))
      else if f.lng < -180.0 || f.lng > 180.0 then Failure(InvariantViolation("longitude"))
      else
        var trimmed := if f.optLabel.Some? then Trim(f.optLabel.value) else [];
        Success(AddressSnapshot(
          if trimmed != [] then Some(trimmed) else None, street, city, ToUpper(f.country), f.lat, f.lng))
    }

    function ToJson(): AddressFields {
      AddressFields(optLabel, street, city, country, lat, lng)
    }

    predicate Normal() {
      && street != [] && Trimmed(street)
      && city != [] && Trimmed(city)
      && |country| == 2 && 'A' <= country[0] <= 'Z' && 'A' <= country[1] <= 'Z'
      && -90.0 <= lat <= 90.0 && -180.0 <= lng <= 180.0
      && (optLabel.Some? ==> optLabel.value != [] && Trimmed(optLabel.value))
    }
  }

  lemma AddressOfIsNormal(f: AddressFields)
    ensures AddressSnapshot.Of(f).Success? ==> AddressSnapshot.Of(f).value.Normal()
  {
    TrimIsIdempotent(f.street);
    TrimIsIdempotent(f.city);
    if f.optLabel.Some? {
      TrimIsIdempotent(f.optLabel.value);
    }
  }

  /** A snapshot survives its own JSON exactly when it is one the constructor can produce. */
  lemma AddressRoundTrip(a: AddressSnapshot)
    ensures AddressSnapshot.Of(a.ToJson()) == Success(a) <==> a.Normal()
    ensures a.Normal() <==> exists f :: AddressSnapshot.Of(f) == Success(a)
  {
    TrimIsIdempotent(a.street);
    TrimIsIdempotent(a.city);
    if a.optLabel.Some? {
      TrimIsIdempotent(a.optLabel.value);
    }
    if AddressSnapshot.Of(a.ToJson()) == Success(a) {
      AddressOfIsNormal(a.ToJson());
    }
    if a.Normal() {
      assert ToUpper(a.country) == a.country;
      assert AddressSnapshot.Of(a.ToJson()) == Success(a);
    }
    forall f | AddressSnapshot.Of(f) == Success(a) ensures a.Normal() {
      AddressOfIsNormal(f);
    }
  }

  /**
    Which addresses are accepted and what becomes of them: both texts say something, a two-letter
    country, a point on the globe; texts trimmed, an empty label dropped, the country in capitals.
   */
  lemma AddressAcceptedIff(f: AddressFields)
    ensures AddressSnapshot.Of(f).Success? <==>
      && Trim(f.street) != [] && Trim(f.city) != []
      && |f.country| == 2 && (forall k :: 0 <= k < 2 ==> 'a' <= f.country[k] <= 'z' || 'A' <= f.country[k] <= 'Z')
      && -90.0 <= f.lat <= 90.0 && -180.0 <= f.lng <= 180.0
    ensures AddressSnapshot.Of(f) == Failure(InvariantViolation("street")) <==> Trim(f.street) == []
    ensures AddressSnapshot.Of(f) == Failure(InvariantViolation("city")) <==> Trim(f.street) != [] && Trim(f.city) == []
    ensures AddressSnapshot.Of(f).Success? ==> var a := AddressSnapshot.Of(f).value;
      && a.street == Trim(f.street) && a.city == Trim(f.city) && a.lat == f.lat && a.lng == f.lng
      && |a.country| == 2
      && (forall k :: 0 <= k < 2 ==>
            && 'A' <= a.country[k] <= 'Z'
            && (a.country[k] == f.country[k] || a.country[k] as int == f.country[k] as int - 32))
      && (a.optLabel == None <==> f.optLabel == None || Trim(f.optLabel.value) == [])
      && (a.optLabel.Some? ==> a.optLabel.value == Trim(f.optLabel.value))
  {
    if |f.country| == 2 {
      assert IsCountryCode(f.country) <==> (forall k :: 0 <= k < 2 ==> IsLetter(f.country[k]));
    }
  }

  /** `Number.isInteger`; reals stand for the numbers that are neither NaN nor infinite. */
  predicate IsInteger(x: real) {
    x == x.Floor as real
  }

  datatype ItemFields = ItemFields(description: string, quantity: real, weightKg: Option<real>)

  datatype OrderItemLine = OrderItemLine(description: string, quantity: real, weightKg: Option<real>) {
    static function Of(f: ItemFields): Result<OrderItemLine, DomainError> {
      var description := Trim(f.description);
      if description == [] then Failure(InvariantViolation("description"))
      else if !IsInteger(f.quantity) || f.quantity < 1.0 then Failure(InvariantViolation("quantity"))
      else if f.weightKg.Some? && f.weightKg.value <= 0.0 then Failure(InvariantViolation("weightKg"))
      else Success(OrderItemLine(description, f.quantity, f.weightKg))
    }

    function ToJson(): ItemFields {
      ItemFields(description, quantity, weightKg)
    }

    predicate Normal() {
      && description != [] && Trimmed(description)
      && IsInteger(quantity) && quantity >= 1.0
      && (weightKg.Some? ==> weightKg.value > 0.0)
    }
  }

  lemma ItemRoundTrip(a: OrderItemLine)
    ensures OrderItemLine.Of(a.ToJson()) == Success(a) <==> a.Normal()
    ensures a.Normal() <==> exists f :: OrderItemLine.Of(f) == Success(a)
  {
    TrimIsIdempotent(a.description);
    if a.Normal() {
      assert OrderItemLine.Of(a.ToJson()) == Success(a);
    }
    forall f | OrderItemLine.Of(f) == Success(a) ensures a.Normal() {
      TrimIsIdempotent(f.description);
    }
  }

  /** Which item lines are accepted, and what becomes of them. */
  lemma ItemAcceptedIff(f: ItemFields)
    ensures OrderItemLine.Of(f).Success? <==>
      && Trim(f.description) != [] && f.quantity >= 1.0 && f.quantity == f.quantity.Floor as real
      && (f.weightKg.Some? ==> f.weightKg.value > 0.0)
    ensures OrderItemLine.Of(f).Success? ==> var a := OrderItemLine.Of(f).value;
      a.description == Trim(f.description) && a.quantity == f.quantity && a.weightKg == f.weightKg
  {
  }

  function ItemsToJson(items: seq<OrderItemLine>): seq<ItemFields> {
    seq(|items|, i requires 0 <= i < |items| => items[i].ToJson())
  }

  /** `items.map(OrderItemLine.of)`: the first bad line throws. */
  function ItemsOf(fs: seq<ItemFields>): Result<seq<OrderItemLine>, DomainError> {
    if fs == [] then Success([]) else
    var first :- OrderItemLine.Of(fs[0]);
    var rest :- ItemsOf(fs[1..]);
    Success([first] + rest)
  }

  ghost predicate AllNormal(items: seq<OrderItemLine>) {
    forall i :: 0 <= i < |items| ==> items[i].Normal()
  }

  lemma {:induction false} ItemsOfAreNormal(fs: seq<ItemFields>)
    ensures ItemsOf(fs).Success? ==> AllNormal(ItemsOf(fs).value)
  {
    if fs != [] && ItemsOf(fs).Success? {
      ItemsOfAreNormal(fs[1..]);
      ItemRoundTrip(OrderItemLine.Of(fs[0]).value);
    }
  }

  /** A list is accepted line by line, in order; one bad line refuses it. */
  lemma {:induction false} ItemsAcceptedIff(fs: seq<ItemFields>)
    ensures ItemsOf(fs).Success? <==> forall i :: 0 <= i < |fs| ==> OrderItemLine.Of(fs[i]).Success?
    ensures ItemsOf(fs).Success? ==>
      && |ItemsOf(fs).value| == |fs|
      && forall i :: 0 <= i < |fs| ==> OrderItemLine.Of(fs[i]) == Success(ItemsOf(fs).value[i])
  {
    if fs != [] {
      ItemsAcceptedIff(fs[1..]);
      assert forall i :: 0 < i < |fs| ==> fs[i] == fs[1..][i - 1];
      if forall i :: 0 <= i < |fs| ==> OrderItemLine.Of(fs[i]).Success? {
        assert forall i :: 0 <= i < |fs[1..]| ==> fs[1..][i] == fs[i + 1];
      }
    }
  }

  lemma {:induction false} ItemsRoundTrip(items: seq<OrderItemLine>)
    ensures ItemsOf(ItemsToJson(items)) == Success(items) <==> AllNormal(items)
  {
    if items != [] {
      var json := ItemsToJson(items);
      assert json[1..] == ItemsToJson(items[1..]);
      ItemRoundTrip(items[0]);
      ItemsRoundTrip(items[1..]);
      assert [items[0]] + items[1..] == items;
      if ItemsOf(json) == Success(items) {
        var first, rest := OrderItemLine.Of(json[0]).value, ItemsOf(json[1..]).value;
        assert items == [first] + rest;
        assert rest == items[1..];
      }
      if AllNormal(items[1..]) && items[0].Normal() {
        assert forall i :: 0 < i < |items| ==> items[i] == items[1..][i - 1];
      }
    }
  }
}
