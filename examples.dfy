/**
 * Clients of the record and the book that rely only on the contracts above,
 * following the scenarios of the unit tests and of the demonstration script.
 */
module Examples {
  import opened Wrappers
  import opened Fields
  import opened Records
  import opened AddressBooks

  method AddAndFindScenario() {
    ValidationExamples();
    IsValidNumberIff("123abc");
    var r := new Record("John Doe");
    assert r.name.value == "John Doe" && r.phones == [];
    var out := r.AddPhone("1234567890");
    assert out == Pass && r.phones == [Phone("1234567890")];
    var found := r.FindPhone("1234567890");
    assert found == Some("1234567890");
    out := r.AddPhone("123abc");
    assert out == Fail(InvalidNumber) && r.phones == [Phone("1234567890")];
  }

  lemma RenderTwoPhones()
    ensures Render(Name("John Doe"), [Phone("1234567890"), Phone("0987654321")])
            == "Contact name: John Doe, phones: 1234567890; 0987654321"
  {
    var a, b := "1234567890", "0987654321";
    var vs := Values([Phone(a), Phone(b)]);
    assert |vs| == 2 && vs[0] == a && vs[1] == b;
    assert vs == [a, b];
    assert Join([b]) == b;
    assert [a, b][1..] == [b];
    assert Join(vs) == a + Separator + b;
    assert RenderHead(Name("John Doe")) == "Contact name: John Doe, phones: ";
  }

  method RenderScenario() {
    IsValidNumberIff("1234567890");
    IsValidNumberIff("0987654321");
    var r := new Record("John Doe");
    var out := r.AddPhone("1234567890");
    out := r.AddPhone("0987654321");
    assert r.phones == [Phone("1234567890"), Phone("0987654321")];
    RenderTwoPhones();
    assert r.ToString() == "Contact name: John Doe, phones: 1234567890; 0987654321";
  }

  method EditAndRemoveScenario() {
    ValidationExamples();
    IsValidNumberIff("1112223333");
    var r := new Record("John");
    var out := r.AddPhone("1234567890");
    assert r.phones == [Phone("1234567890")];
    out := r.EditPhone("1111111111", "1112223333");
    assert out == Fail(NotFound) && r.phones == [Phone("1234567890")];
    out := r.EditPhone("1234567890", "1112223333");
    assert out == Pass && r.phones == [Phone("1112223333")];
    out := r.RemovePhone("1112223333");
    assert out == Pass && r.phones == [];
    var found := r.FindPhone("1112223333");
    assert found == None;
  }

  method BookScenario() {
    var book := new AddressBook();
    var john := new Record("John");
    var jane := new Record("Jane");
    book.AddRecord(john);
    book.AddRecord(jane);
    assert |book.data| == 2;
    var out := book.Delete("Jane");
    assert out == Pass && book.Find("Jane") == None && book.Find("John") == Some(john);
    out := book.Delete("Jane");
    assert out == Fail(NotFound) && |book.data| == 1;

    var other := new Record("John");
    book.AddRecord(other);
    assert book.Find("John") == Some(other) && |book.data| == 1;
  }
}
