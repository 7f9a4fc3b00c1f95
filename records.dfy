/**
 * A contact: a name and an ordered list of phones. Removing, editing and
 * finding a phone act on the first phone whose value equals the number.
 * The pure functions below give the meaning of each operation on the list;
 * the class `Record` performs the operations in place.
 */
module Records {
  import opened Wrappers
  import opened Fields

  /** Every stored phone obeys the ten-digit rule. */
  ghost predicate AllValid(phones: seq<Phone>) {
    forall i :: 0 <= i < |phones| ==> IsValidNumber(phones[i].value)
  }

  ghost predicate HasPhone(phones: seq<Phone>, number: string) {
    exists i :: 0 <= i < |phones| && phones[i].value == number
  }

  /** The position of the first phone at or after `i` whose value is `number`. */
  function FirstIndexFrom(phones: seq<Phone>, number: string, i: nat): (r: Option<nat>)
    requires i <= |phones|
    ensures r.Some? ==> i <= r.value < |phones| && phones[r.value].value == number
    decreases |phones| - i
  {
    if i == |phones| then None
    else if phones[i].value == number then Some(i)
    else FirstIndexFrom(phones, number, i + 1)
  }

  function FirstIndex(phones: seq<Phone>, number: string): (r: Option<nat>)
    ensures r.Some? ==> r.value < |phones| && phones[r.value].value == number
  {
    FirstIndexFrom(phones, number, 0)
  }

  lemma {:induction false} FirstIndexFromSpec(phones: seq<Phone>, number: string, i: nat)
    requires i <= |phones|
    ensures FirstIndexFrom(phones, number, i).None? <==> forall j :: i <= j < |phones| ==> phones[j].value != number
    ensures FirstIndexFrom(phones, number, i).Some? ==>
              forall j :: i <= j < FirstIndexFrom(phones, number, i).value ==> phones[j].value != number
    decreases |phones| - i
  {
    if i < |phones| {
      FirstIndexFromSpec(phones, number, i + 1);
    }
  }

  /** The search finds a phone exactly when one has the number, and then it finds the first. */
  lemma FirstIndexSpec(phones: seq<Phone>, number: string)
    ensures FirstIndex(phones, number).Some? <==> HasPhone(phones, number)
    ensures FirstIndex(phones, number).Some? ==>
              forall j :: 0 <= j < FirstIndex(phones, number).value ==> phones[j].value != number
  {
    FirstIndexFromSpec(phones, number, 0);
  }

  /** `HasPhone` in terms of the multiset of phones. */
  lemma HasPhoneCount(phones: seq<Phone>, number: string)
    ensures HasPhone(phones, number) <==> multiset(phones)[Phone(number)] > 0
  {
  }

  /** `remove_phone` on the list: drop the first phone with the number, if any. */
  function RemoveFirst(phones: seq<Phone>, number: string): seq<Phone> {
    match FirstIndex(phones, number)
    case None => phones
    case Some(k) => phones[..k] + phones[k + 1..]
  }

  /**
   * Removing takes out exactly one phone with the number, the first one, and
   * keeps every other phone in its order; without a match nothing changes.
   */
  lemma RemoveFirstSpec(phones: seq<Phone>, number: string)
    ensures !HasPhone(phones, number) ==> RemoveFirst(phones, number) == phones
    ensures HasPhone(phones, number) <==> FirstIndex(phones, number).Some?
    ensures FirstIndex(phones, number).Some? ==>
              var k := FirstIndex(phones, number).value;
              var r := RemoveFirst(phones, number);
              && |r| == |phones| - 1
              && (forall j :: 0 <= j < k ==> phones[j].value != number && r[j] == phones[j])
              && (forall j :: k <= j < |r| ==> r[j] == phones[j + 1])
              && multiset(r) == multiset(phones) - multiset{Phone(number)}
    ensures AllValid(phones) ==> AllValid(RemoveFirst(phones, number))
  {
    FirstIndexSpec(phones, number);
    match FirstIndex(phones, number)
    case None =>
    case Some(k) =>
      assert phones == phones[..k] + [phones[k]] + phones[k + 1..];
      assert phones[k] == Phone(number);
      var r := RemoveFirst(phones, number);
      assert multiset(phones) == multiset(r) + multiset{Phone(number)};
  }

  /**
   * After removing a number it can still be found exactly when it was stored
   * at least twice: removal takes out one occurrence only.
   */
  lemma RemoveThenFind(phones: seq<Phone>, number: string)
    ensures HasPhone(RemoveFirst(phones, number), number) <==> multiset(phones)[Phone(number)] >= 2
  {
    RemoveFirstSpec(phones, number);
    HasPhoneCount(phones, number);
    HasPhoneCount(RemoveFirst(phones, number), number);
  }

  /** `edit_phone` on the list: the first phone with the number becomes `phone`, if any. */
  function ReplaceFirst(phones: seq<Phone>, number: string, phone: Phone): seq<Phone> {
    match FirstIndex(phones, number)
    case None => phones
    case Some(k) => phones[k := phone]
  }

  /** Editing keeps the length, rewrites only the first match, and leaves the list alone without one. */
  lemma ReplaceFirstSpec(phones: seq<Phone>, number: string, phone: Phone)
    ensures |ReplaceFirst(phones, number, phone)| == |phones|
    ensures !HasPhone(phones, number) ==> ReplaceFirst(phones, number, phone) == phones
    ensures HasPhone(phones, number) <==> FirstIndex(phones, number).Some?
    ensures FirstIndex(phones, number).Some? ==>
              var k := FirstIndex(phones, number).value;
              var r := ReplaceFirst(phones, number, phone);
              && r[k] == phone
              && (forall j :: 0 <= j < k ==> phones[j].value != number)
              && (forall j :: 0 <= j < |r| && j != k ==> r[j] == phones[j])
              && HasPhone(r, phone.value)
    ensures AllValid(phones) && IsValidNumber(phone.value) ==> AllValid(ReplaceFirst(phones, number, phone))
  {
    FirstIndexSpec(phones, number);
  }

  /**
   * Appending a phone makes its number findable without moving the first
   * match of any number that was already stored.
   */
  lemma AppendThenFind(phones: seq<Phone>, phone: Phone, number: string)
    ensures HasPhone(phones + [phone], phone.value)
    ensures HasPhone(phones, number) ==> FirstIndex(phones + [phone], number) == FirstIndex(phones, number)
    ensures !HasPhone(phones, phone.value) ==> FirstIndex(phones + [phone], phone.value) == Some(|phones|)
  {
    var s := phones + [phone];
    assert s[|phones|] == phone;
    FirstIndexSpec(phones, number);
    FirstIndexSpec(s, number);
    FirstIndexSpec(s, phone.value);
    FirstIndexSpec(phones, phone.value);
    if HasPhone(phones, number) {
      var i :| 0 <= i < |phones| && phones[i].value == number;
      assert s[i] == phones[i];
      var k := FirstIndex(phones, number).value;
      assert s[k] == phones[k];
    }
  }

  /** The phone values, in stored order. */
  function Values(phones: seq<Phone>): seq<string> {
    seq(|phones|, i requires 0 <= i < |phones| => phones[i].value)
  }

  const Separator: string := "; "

  /** Python's `"; ".join(items)`. */
  function Join(items: seq<string>): string {
    if |items| == 0 then ""
    else if |items| == 1 then items[0]
    else items[0] + Separator + Join(items[1..])
  }

  /** Python's `s.split("; ")`: the inverse of `Join` for items without a `;`. */
  function Split(s: string): (items: seq<string>)
    ensures |items| >= 1
    decreases |s|
  {
    if s == [] then [[]]
    else if |s| >= 2 && s[..2] == Separator then [[]] + Split(s[2..])
    else
      var rest := Split(s[1..]);
      [[s[0]] + rest[0]] + rest[1..]
  }

  lemma {:induction false} SplitPrefix(x: string, t: string)
    requires forall k :: 0 <= k < |x| ==> x[k] != ';'
    ensures Split(x + t) == [x + Split(t)[0]] + Split(t)[1..]
    decreases |x|
  {
    if x == [] {
      assert x + t == t && x + Split(t)[0] == Split(t)[0];
    } else {
      assert (x + t)[0] == x[0];
      assert |x + t| >= 2 ==> (x + t)[..2][0] == x[0] != ';';
      assert (x + t)[1..] == x[1..] + t;
      SplitPrefix(x[1..], t);
      assert [x[0]] + (x[1..] + Split(t)[0]) == x + Split(t)[0];
    }
  }

  /** Splitting the joined list gives the list back, when no item holds a `;`. */
  lemma {:induction false} JoinSplitRoundTrip(items: seq<string>)
    requires |items| >= 1
    requires forall i, k :: 0 <= i < |items| && 0 <= k < |items[i]| ==> items[i][k] != ';'
    ensures Split(Join(items)) == items
    decreases |items|
  {
    if |items| == 1 {
      SplitPrefix(items[0], "");
      assert items[0] + "" == items[0];
    } else {
      var tail := Join(items[1..]);
      JoinSplitRoundTrip(items[1..]);
      var rest := Separator + tail;
      assert rest[..2] == Separator && rest[2..] == tail;
      assert Split(rest) == [[]] + items[1..];
      SplitPrefix(items[0], rest);
      assert items[0] + Separator + tail == items[0] + rest;
      assert Split(rest)[0] == [] && Split(rest)[1..] == items[1..];
      assert items[0] + [] == items[0];
      assert [items[0]] + items[1..] == items;
    }
  }

  const NamePrefix: string := "Contact name: "
  const PhonesPrefix: string := ", phones: "

  /** What `str(record)` shows before the phones. */
  function RenderHead(name: Name): string {
    NamePrefix + name.value + PhonesPrefix
  }

  /** `str(record)`: the name, then the phone values joined by `"; "` in stored order. */
  function Render(name: Name, phones: seq<Phone>): string {
    RenderHead(name) + Join(Values(phones))
  }

  /**
   * The rendering starts with the name; its tail is empty exactly when there
   * are no phones, and otherwise splits back into the stored phone values.
   */
  lemma RenderRoundTrip(name: Name, phones: seq<Phone>)
    ensures var head := RenderHead(name);
            var s := Render(name, phones);
            && |head| <= |s| && s[..|head|] == head
            && (phones == [] ==> s == head)
            && (AllValid(phones) && phones != [] ==> s != head && Split(s[|head|..]) == Values(phones))
  {
    var head := RenderHead(name);
    var tail := Join(Values(phones));
    assert Render(name, phones) == head + tail;
    assert (head + tail)[..|head|] == head && (head + tail)[|head|..] == tail;
    var vs := Values(phones);
    if AllValid(phones) && phones != [] {
      forall i, k | 0 <= i < |vs| && 0 <= k < |vs[i]| ensures vs[i][k] != ';' {
        IsValidNumberIff(vs[i]);
        assert IsDigit(vs[i][k]);
      }
      JoinSplitRoundTrip(vs);
      IsValidNumberIff(vs[0]);
      assert |vs| > 1 ==> |tail| > 0;
    }
  }

  class Record {
    const name: Name
    var phones: seq<Phone>

    ghost predicate Valid()
      reads this
    {
      AllValid(phones)
    }

    constructor (name: string)
      ensures this.name == Name(name) && phones == []
      ensures Valid()
    {
      this.name := Name(name);
      phones := [];
    }

    /** Appends a phone for a valid number; duplicates are kept. */
    method AddPhone(number: string) returns (out: Outcome<Error>)
      modifies this
      ensures out == (if IsValidNumber(number) then Pass else Fail(InvalidNumber))
      ensures phones == (if out == Pass then old(phones) + [Phone(number)] else old(phones))
      ensures out == Pass ==> HasPhone(phones, number)
      ensures old(Valid()) ==> Valid()
    {
      match NewPhone(number)
      case Success(phone) =>
        phones := phones + [phone];
        out := Pass;
        AppendThenFind(old(phones), phone, number);
      case Failure(e) =>
        out := Fail(e);
    }

    /** Removes the first phone with the number. */
    method RemovePhone(number: string) returns (out: Outcome<Error>)
      modifies this
      ensures out == (if HasPhone(old(phones), number) then Pass else Fail(NotFound))
      ensures phones == RemoveFirst(old(phones), number)
      ensures old(Valid()) ==> Valid()
    {
      FirstIndexSpec(phones, number);
      RemoveFirstSpec(phones, number);
      var found := FindPhoneObject(number);
      match found
      case None =>
        out := Fail(NotFound);
      case Some(k) =>
        phones := phones[..k] + phones[k + 1..];
        out := Pass;
    }

    /**
     * Replaces the first phone with `oldNumber`, in place, by a phone for
     * `newNumber`. A missing old number is reported before an invalid new one.
     */
    method EditPhone(oldNumber: string, newNumber: string) returns (out: Outcome<Error>)
      modifies this
      ensures out == (if !HasPhone(old(phones), oldNumber) then Fail(NotFound)
                      else if !IsValidNumber(newNumber) then Fail(InvalidNumber)
                      else Pass)
      ensures phones == (if out == Pass then ReplaceFirst(old(phones), oldNumber, Phone(newNumber)) else old(phones))
      ensures old(Valid()) ==> Valid()
    {
      FirstIndexSpec(phones, oldNumber);
      ReplaceFirstSpec(phones, oldNumber, Phone(newNumber));
      var found := FindPhoneObject(oldNumber);
      match found
      case None =>
        out := Fail(NotFound);
      case Some(k) =>
        match NewPhone(newNumber)
        case Success(phone) =>
          phones := phones[k := phone];
          out := Pass;
        case Failure(e) =>
          out := Fail(e);
    }

    /** The number itself when some phone has it, otherwise nothing. */
    method FindPhone(number: string) returns (r: Option<string>)
      ensures r == (if HasPhone(phones, number) then Some(number) else None)
    {
      FirstIndexSpec(phones, number);
      var found := FindPhoneObject(number);
      match found
      case Some(k) =>
        r := Some(phones[k].value);
      case None =>
        r := None;
    }

    /** The linear scan for the first phone with the number; the phone is given by its position. */
    method FindPhoneObject(number: string) returns (found: Option<nat>)
      ensures found == FirstIndex(phones, number)
    {
      var i := 0;
      while i < |phones|
        invariant i <= |phones|
        invariant FirstIndexFrom(phones, number, i) == FirstIndex(phones, number)
      {
        if phones[i].value == number {
          return Some(i);
        }
        i := i + 1;
      }
      return None;
    }

    /**
     * `str(record)`: the fixed head with the name, then the phones. The tail
     * is empty without phones and, for a valid record, splits back into the
     * stored phone values in order.
     */
    function ToString(): (s: string)
      reads this
      ensures |RenderHead(name)| <= |s| && s[..|RenderHead(name)|] == RenderHead(name)
      ensures phones == [] ==> s == RenderHead(name)
      ensures Valid() && phones != [] ==> s != RenderHead(name) && Split(s[|RenderHead(name)|..]) == Values(phones)
    {
      RenderRoundTrip(name, phones);
      Render(name, phones)
    }
  }
}
