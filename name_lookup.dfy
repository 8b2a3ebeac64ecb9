/** `find_document_by_name` and `find_persona_by_name` once the listing has been
    fetched and decoded: index the listing with `"data"`, then scan the records
    in order and stop at the first whose name field equals `name`.
    `FirstMatch` is the specification of the scan, `FindByName` the loop. */
module NameLookup {
  import opened PyValues

  const DocumentNameField: string := "document_name"
  const PersonaNameField: string := "persona_name"

  /** `record.get(field) == name`; only called on dicts. */
  predicate HasName(record: Json, field: string, name: string)
    requires record.JObj?
  {
    Get(record.fields, field) == JStr(name)
  }

  /** The first record with the name, None when there is none, AttributeError
      when a record that is not a dict is reached before a match. */
  function FirstMatch(records: seq<Json>, field: string, name: string): (r: Result<Option<Json>, PyError>)
    ensures r.Success? && r.value.Some? ==>
              r.value.value in records && r.value.value.JObj? && HasName(r.value.value, field, name)
    ensures r.Failure? ==> r.error == AttributeError && exists i :: 0 <= i < |records| && !records[i].JObj?
    decreases |records|
  {
    if records == [] then Success(None)
    else if !records[0].JObj? then Failure(AttributeError)
    else if HasName(records[0], field, name) then Success(Some(records[0]))
    else FirstMatch(records[1..], field, name)
  }

  /** Every record before index `i` is a dict without the name. */
  ghost predicate NoMatchBefore(records: seq<Json>, field: string, name: string, i: int)
    requires 0 <= i <= |records|
  {
    forall j :: 0 <= j < i ==> records[j].JObj? && !HasName(records[j], field, name)
  }

  /** `records[i]` is the first record with the name. */
  ghost predicate FirstMatchAt(records: seq<Json>, field: string, name: string, i: int) {
    && 0 <= i < |records|
    && records[i].JObj? && HasName(records[i], field, name)
    && NoMatchBefore(records, field, name, i)
  }

  /** The scan loop, with its early returns. */
  method FindByName(records: seq<Json>, field: string, name: string) returns (r: Result<Option<Json>, PyError>)
    ensures r == FirstMatch(records, field, name)
  {
    var i := 0;
    while i < |records|
      invariant 0 <= i <= |records|
      invariant FirstMatch(records, field, name) == FirstMatch(records[i..], field, name)
    {
      var record := records[i];
      assert records[i..][0] == record && records[i..][1..] == records[i + 1..];
      if !record.JObj? {
        return Failure(AttributeError);
      }
      if Get(record.fields, field) == JStr(name) {
        return Success(Some(record));
      }
      i := i + 1;
    }
    return Success(None);
  }

  /** The result names the first matching record, and only it. */
  lemma {:induction false} FirstMatchFound(records: seq<Json>, field: string, name: string)
    ensures forall x :: FirstMatch(records, field, name) == Success(Some(x)) <==>
                          exists i :: FirstMatchAt(records, field, name, i) && records[i] == x
    decreases |records|
  {
    if records != [] {
      FirstMatchFound(records[1..], field, name);
      forall x ensures FirstMatch(records, field, name) == Success(Some(x)) <==>
                         exists i :: FirstMatchAt(records, field, name, i) && records[i] == x {
        if exists i :: FirstMatchAt(records, field, name, i) && records[i] == x {
          var i :| FirstMatchAt(records, field, name, i) && records[i] == x;
          if i > 0 {
            assert FirstMatchAt(records[1..], field, name, i - 1) by {
              forall j | 0 <= j < i - 1 ensures records[1..][j] == records[j + 1] { }
            }
          }
        }
        if FirstMatch(records, field, name) == Success(Some(x)) && records[0].JObj? && !HasName(records[0], field, name) {
          var i :| FirstMatchAt(records[1..], field, name, i) && records[1..][i] == x;
          assert FirstMatchAt(records, field, name, i + 1) by {
            forall j | 0 <= j < i + 1 ensures records[j].JObj? && !HasName(records[j], field, name) {
              if j > 0 { assert records[j] == records[1..][j - 1]; }
            }
          }
        }
      }
    }
  }

  /** No record has the name (all are dicts): the result is None, and conversely. */
  lemma {:induction false} FirstMatchNone(records: seq<Json>, field: string, name: string)
    ensures FirstMatch(records, field, name) == Success(None) <==> NoMatchBefore(records, field, name, |records|)
    decreases |records|
  {
    if records != [] {
      FirstMatchNone(records[1..], field, name);
      forall j | 0 <= j < |records| - 1 ensures records[1..][j] == records[j + 1] { }
    }
  }

  /** The scan raises exactly when it reaches a non-dict before any match. */
  lemma {:induction false} FirstMatchRaises(records: seq<Json>, field: string, name: string)
    ensures FirstMatch(records, field, name).Failure? <==>
              exists i :: 0 <= i < |records| && !records[i].JObj? && NoMatchBefore(records, field, name, i)
    ensures FirstMatch(records, field, name).Failure? ==> FirstMatch(records, field, name).error == AttributeError
    decreases |records|
  {
    if records != [] {
      FirstMatchRaises(records[1..], field, name);
      if exists i :: 0 <= i < |records| && !records[i].JObj? && NoMatchBefore(records, field, name, i) {
        var i :| 0 <= i < |records| && !records[i].JObj? && NoMatchBefore(records, field, name, i);
        if i > 0 {
          assert !records[1..][i - 1].JObj? && NoMatchBefore(records[1..], field, name, i - 1) by {
            forall j | 0 <= j < i - 1 ensures records[1..][j] == records[j + 1] { }
          }
        }
      }
      if FirstMatch(records, field, name).Failure? && records[0].JObj? {
        var i :| 0 <= i < |records[1..]| && !records[1..][i].JObj? && NoMatchBefore(records[1..], field, name, i);
        assert !records[i + 1].JObj? && NoMatchBefore(records, field, name, i + 1) by {
          forall j | 0 <= j < i + 1 ensures records[j].JObj? && !HasName(records[j], field, name) {
            if j > 0 { assert records[j] == records[1..][j - 1]; }
          }
        }
      }
    }
  }

  /** Records after the one that decides the scan (a match or a non-dict) are
      never examined: appending more records changes nothing. */
  lemma {:induction false} RestNotExamined(records: seq<Json>, rest: seq<Json>, field: string, name: string)
    requires FirstMatch(records, field, name) != Success(None)
    ensures FirstMatch(records + rest, field, name) == FirstMatch(records, field, name)
    decreases |records|
  {
    assert records != [];
    assert (records + rest)[0] == records[0];
    if records[0].JObj? && !HasName(records[0], field, name) {
      assert (records + rest)[1..] == records[1..] + rest;
      RestNotExamined(records[1..], rest, field, name);
    }
  }

  // ---------------------------------------------------------------------------
  // The listing around the scan

  /** `listing["data"]`: KeyError on a dict without the key, TypeError on
      anything that is not a dict. */
  function Subscript(listing: Json, key: string): (r: Result<Json, PyError>)
    ensures r.Success? <==> listing.JObj? && key in listing.fields
    ensures r.Success? ==> r.value == listing.fields[key]
    ensures r.Failure? ==> r.error == (if listing.JObj? then KeyError else TypeError)
  {
    match listing
    case JObj(m) => if key in m then Success(m[key]) else Failure(KeyError)
    case _ => Failure(TypeError)
  }

  /** `for record in listing["data"]: if record.get(field) == name: return record`,
      then `return None`. A list is scanned; iterating a string or a dict yields
      strings, so a non-empty one raises AttributeError on the first `.get`
      and an empty one gives None; anything else is not iterable. */
  function LookupByName(listing: Json, field: string, name: string): (r: Result<Option<Json>, PyError>)
    ensures !(listing.JObj? && "data" in listing.fields) ==> r == Failure(if listing.JObj? then KeyError else TypeError)
    ensures r.Success? && r.value.Some? ==>
              && listing.JObj? && "data" in listing.fields && listing.fields["data"].JList?
              && r.value.value in listing.fields["data"].items
              && r.value.value.JObj? && HasName(r.value.value, field, name)
  {
    match Subscript(listing, "data")
    case Failure(e) => Failure(e)
    case Success(data) =>
      match data
      case JList(records) => FirstMatch(records, field, name)
      case JStr(s) => if s == "" then Success(None) else Failure(AttributeError)
      case JObj(m) => if m == map[] then Success(None) else Failure(AttributeError)
      case _ => Failure(TypeError)
  }

  method ScanListing(listing: Json, field: string, name: string) returns (r: Result<Option<Json>, PyError>)
    ensures r == LookupByName(listing, field, name)
  {
    var data := Subscript(listing, "data");
    if data.Failure? {
      return Failure(data.error);
    }
    match data.value
    case JList(records) =>
      r := FindByName(records, field, name);
    case JStr(s) =>
      r := if s == "" then Success(None) else Failure(AttributeError);
    case JObj(m) =>
      r := if m == map[] then Success(None) else Failure(AttributeError);
    case _ =>
      r := Failure(TypeError);
  }

  /** `find_document_by_name` on the decoded `GET /v2/documents` reply. */
  method FindDocumentByName(documents: Json, name: string) returns (r: Result<Option<Json>, PyError>)
    ensures r == LookupByName(documents, DocumentNameField, name)
    ensures r.Success? && r.value.Some? ==> r.value.value.JObj? && Get(r.value.value.fields, DocumentNameField) == JStr(name)
  {
    r := ScanListing(documents, DocumentNameField, name);
    LookupFindsNamedRecord(documents, DocumentNameField, name);
  }

  /** `find_persona_by_name` on the decoded `GET /v2/personas` reply. */
  method FindPersonaByName(personas: Json, name: string) returns (r: Result<Option<Json>, PyError>)
    ensures r == LookupByName(personas, PersonaNameField, name)
    ensures r.Success? && r.value.Some? ==> r.value.value.JObj? && Get(r.value.value.fields, PersonaNameField) == JStr(name)
  {
    r := ScanListing(personas, PersonaNameField, name);
    LookupFindsNamedRecord(personas, PersonaNameField, name);
  }

  /** What a lookup finds is a dict that carries the name, and it is the first
      such record of the listing's `data` list; conversely the first such
      record is what the lookup finds. */
  lemma LookupFindsNamedRecord(listing: Json, field: string, name: string)
    ensures LookupByName(listing, field, name).Success? && LookupByName(listing, field, name).value.Some? ==>
              var x := LookupByName(listing, field, name).value.value;
              && x.JObj? && HasName(x, field, name)
              && listing.JObj? && "data" in listing.fields && listing.fields["data"].JList?
              && exists i :: FirstMatchAt(listing.fields["data"].items, field, name, i) &&
                             listing.fields["data"].items[i] == x
    ensures listing.JObj? && "data" in listing.fields && listing.fields["data"].JList? ==>
              forall i :: FirstMatchAt(listing.fields["data"].items, field, name, i) ==>
                            LookupByName(listing, field, name) == Success(Some(listing.fields["data"].items[i]))
  {
    if listing.JObj? && "data" in listing.fields && listing.fields["data"].JList? {
      FirstMatchFound(listing.fields["data"].items, field, name);
    }
  }
}
