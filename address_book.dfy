/**
 * The address book: a dictionary from a contact's name to its record.
 * Adding overwrites silently; finding and deleting go by name.
 */
module AddressBooks {
  import opened Wrappers
  import opened Fields
  import opened Records

  class AddressBook {
    var data: map<string, Record>

    /** Every record is filed under its own name. */
    ghost predicate Valid()
      reads this
    {
      forall key :: key in data ==> data[key].name.value == key
    }

    constructor ()
      ensures data == map[] && Valid()
    {
      data := map[];
    }

    /** Files the record under its name, replacing any record already there. */
    method AddRecord(record: Record)
      modifies this
      ensures data == old(data)[record.name.value := record]
      ensures Find(record.name.value) == Some(record)
      ensures forall key :: key != record.name.value ==> Find(key) == old(Find(key))
      ensures old(Valid()) ==> Valid()
    {
      data := data[record.name.value := record];
    }

    /** The record filed under the name, if there is one. */
    function Find(name: string): (r: Option<Record>)
      reads this
      ensures r.Some? <==> name in data
      ensures r.Some? ==> r.value == data[name]
      ensures Valid() && r.Some? ==> r.value.name.value == name
    {
      if name in data then Some(data[name]) else None
    }

    /** Removes the record filed under the name; without one, the book is unchanged. */
    method Delete(name: string) returns (out: Outcome<Error>)
      modifies this
      ensures out == (if name in old(data) then Pass else Fail(NotFound))
      ensures data == old(data) - {name}
      ensures |data| == (if out == Pass then |old(data)| - 1 else |old(data)|)
      ensures Find(name) == None
      ensures forall key :: key != name ==> Find(key) == old(Find(key))
      ensures old(Valid()) ==> Valid()
    {
      if name in data {
        data := data - {name};
        out := Pass;
      } else {
        assert data - {name} == data;
        out := Fail(NotFound);
      }
    }
  }
}
