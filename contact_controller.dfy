/** The contact controller (backend/src/controllers/contactController.js): the listing with its
    filters, contact creation and soft deletion, the classification of uploaded rows, tagging
    with `$addToSet`, and the list of distinct tags. File parsing is not modelled: an upload
    arrives as its file name and its rows, each row a map from column header to cell text. */
module ContactController {
  import opened Common
  import opened Paging
  import opened ContactModel

  // ---------------------------------------------------------------------------------------
  // Shared store queries

  /** `Contact.findOne({ phoneNumber })` finds a contact, active or not. */
  predicate PhoneTaken(cs: seq<Contact>, phone: string) {
    exists i :: 0 <= i < |cs| && cs[i].phoneNumber == phone
  }

  /** The unique index on `phoneNumber`: no two stored contacts share a number. */
  predicate UniquePhones(cs: seq<Contact>) {
    forall i, j :: 0 <= i < j < |cs| ==> cs[i].phoneNumber != cs[j].phoneNumber
  }

  // ---------------------------------------------------------------------------------------
  // Listing

  /** `tags.split(',')`. */
  function Split(s: string, sep: char): (r: seq<string>)
    ensures |r| >= 1
    ensures forall i :: 0 <= i < |r| ==> sep !in r[i]
  {
    if s == [] then [""]
    else
      var rest := Split(s[1..], sep);
      if s[0] == sep then [""] + rest else [[s[0]] + rest[0]] + rest[1..]
  }

  /** `parts.join(sep)`. */
  function Join(parts: seq<string>, sep: char): string
    requires |parts| >= 1
  {
    if |parts| == 1 then parts[0] else parts[0] + [sep] + Join(parts[1..], sep)
  }

  /** Splitting loses nothing: joining the pieces back gives the original text. */
  lemma {:induction false} JoinSplit(s: string, sep: char)
    ensures Join(Split(s, sep), sep) == s
  {
    if s != [] {
      JoinSplit(s[1..], sep);
      var rest := Split(s[1..], sep);
      if s[0] != sep {
        if |rest| > 1 {
          assert ([[s[0]] + rest[0]] + rest[1..])[1..] == rest[1..];
        }
      }
    }
  }

  /** The listing query: active contacts, those matching the search when there is one (the
      case-insensitive regular expression over name and number is `matchesSearch`), and those
      carrying one of the comma-separated tags when tags are given. */
  predicate Listed(c: Contact, search: string, matchesSearch: Contact -> bool, tags: string) {
    && c.isActive
    && (Truthy(search) ==> matchesSearch(c))
    && (Truthy(tags) ==> exists t :: t in Split(tags, ',') && t in c.tags)
  }

  function ListedContacts(cs: seq<Contact>, search: string, matchesSearch: Contact -> bool, tags: string): (r: seq<Contact>)
    ensures |r| <= |cs|
    ensures forall c :: c in r <==> c in cs && Listed(c, search, matchesSearch, tags)
  {
    if cs == [] then []
    else
      var last := cs[|cs| - 1];
      assert cs == cs[..|cs| - 1] + [last];
      var rest := ListedContacts(cs[..|cs| - 1], search, matchesSearch, tags);
      if Listed(last, search, matchesSearch, tags) then rest + [last] else rest
  }

  const DefaultContactLimit: nat := 50

  /** `getContacts`: newest first, one page, with the filtered total; `page` defaults to 1
      and `limit` to 50. */
  function GetContacts(cs: seq<Contact>, page: Option<int>, limit: Option<nat>, search: string,
                       matchesSearch: Contact -> bool, tags: string): (r: Option<Listing<Contact>>)
    ensures var p := if page.Some? then page.value else 1;
            var n := if limit.Some? then limit.value else DefaultContactLimit;
            var listed := ListedContacts(cs, search, matchesSearch, tags);
            && (r.None? <==> p < 1 && n > 0)
            && (r.Some? ==>
                  && r.value.data == Window(Reverse(listed), p, n).value
                  && r.value.total == |listed| && r.value.pages == PageCount(|listed|, n)
                  && (n > 0 ==> |r.value.data| <= n)
                  && forall c :: c in r.value.data ==> c.isActive && c in cs)
  {
    var p := if page.Some? then page.value else 1;
    var n := if limit.Some? then limit.value else DefaultContactLimit;
    var listed := ListedContacts(cs, search, matchesSearch, tags);
    var r := ListPage(Reverse(listed), p, n);
    PageHoldsListed(listed, p, n);
    r
  }

  lemma PageHoldsListed(listed: seq<Contact>, p: int, n: nat)
    ensures var r := ListPage(Reverse(listed), p, n);
            r.Some? ==> forall c :: c in r.value.data ==> c in listed
  {
    var r := ListPage(Reverse(listed), p, n);
    if r.Some? {
      forall c | c in r.value.data ensures c in listed {
        var k :| 0 <= k < |r.value.data| && r.value.data[k] == c;
        assert c == Reverse(listed)[SkipCount(p, n) + k];
      }
    }
  }

  // ---------------------------------------------------------------------------------------
  // Creation and soft deletion

  datatype ContactRequest = ContactRequest(name: Option<string>, phoneNumber: Option<string>, tags: Option<seq<string>>)

  datatype ContactResponse = ContactCreated(id: nat, contact: Contact) | ContactRejected(httpStatus: nat, message: string)

  const NumberExists: string := "Contact with this phone number already exists"
  const CreateFailed: string := "Error creating contact"

  /** The store and the answer after `createContact`. A missing number makes the sanitizer
      throw and a missing or empty name fails the schema's `required` check; both are answered
      500 by the catch. */
  function CreateContactOutcome(cs: seq<Contact>, req: ContactRequest): (r: (seq<Contact>, ContactResponse))
    ensures r.1.ContactCreated? <==>
              req.phoneNumber.Some? && !PhoneTaken(cs, SanitizePhoneNumber(req.phoneNumber.value))
              && req.name.Some? && Truthy(req.name.value)
    ensures r.1.ContactRejected? ==> r.0 == cs
    ensures req.phoneNumber.Some? && PhoneTaken(cs, SanitizePhoneNumber(req.phoneNumber.value)) ==>
              r.1 == ContactRejected(400, NumberExists)
    ensures r.1.ContactCreated? ==>
              && r.0 == cs + [r.1.contact] && r.1.id == |cs|
              && r.1.contact == Contact(req.name.value, SanitizePhoneNumber(req.phoneNumber.value),
                                        if req.tags.Some? then req.tags.value else [], true)
  {
    if req.phoneNumber.None? then (cs, ContactRejected(500, CreateFailed))
    else
      var sanitized := SanitizePhoneNumber(req.phoneNumber.value);
      if PhoneTaken(cs, sanitized) then (cs, ContactRejected(400, NumberExists))
      else if req.name.None? || !Truthy(req.name.value) then (cs, ContactRejected(500, CreateFailed))
      else
        var c := Contact(req.name.value, sanitized, if req.tags.Some? then req.tags.value else [], true);
        (cs + [c], ContactCreated(|cs|, c))
  }

  /** Creating a contact keeps stored numbers unique. */
  lemma CreateContactKeepsPhonesUnique(cs: seq<Contact>, req: ContactRequest)
    requires UniquePhones(cs)
    ensures UniquePhones(CreateContactOutcome(cs, req).0)
  {
    var r := CreateContactOutcome(cs, req);
    if r.1.ContactCreated? {
      forall i, j | 0 <= i < j < |r.0| ensures r.0[i].phoneNumber != r.0[j].phoneNumber {
        if j == |cs| {
          assert r.0[i] == cs[i];
        }
      }
    }
  }

  /** `createContact`. */
  method CreateContact(contacts: ContactCollection, req: ContactRequest) returns (resp: ContactResponse)
    modifies contacts
    ensures (contacts.records, resp) == CreateContactOutcome(old(contacts.records), req)
  {
    if req.phoneNumber.None? {
      return ContactRejected(500, CreateFailed);
    }
    var sanitized := SanitizePhoneNumber(req.phoneNumber.value);
    if PhoneTaken(contacts.records, sanitized) {
      return ContactRejected(400, NumberExists);
    }
    if req.name.None? || !Truthy(req.name.value) {
      return ContactRejected(500, CreateFailed);
    }
    var c := Contact(req.name.value, sanitized, if req.tags.Some? then req.tags.value else [], true);
    var id := |contacts.records|;
    contacts.records := contacts.records + [c];
    resp := ContactCreated(id, c);
  }

  /** `deleteContact`: a soft delete; only `isActive` changes. */
  method DeleteContact(contacts: ContactCollection, id: nat) returns (found: bool)
    modifies contacts
    ensures found <==> id < |old(contacts.records)|
    ensures found ==> contacts.records == old(contacts.records)[id := old(contacts.records)[id].(isActive := false)]
    ensures !found ==> contacts.records == old(contacts.records)
  {
    if id >= |contacts.records| {
      return false;
    }
    contacts.records := contacts.records[id := contacts.records[id].(isActive := false)];
    found := true;
  }

  /** A deleted contact leaves every listing but still holds its number: creating a contact
      with that number again is refused. */
  lemma DeletedContactStillHoldsItsNumber(cs: seq<Contact>, id: nat, req: ContactRequest,
                                          search: string, matchesSearch: Contact -> bool, tags: string)
    requires id < |cs| && req.phoneNumber.Some?
    requires SanitizePhoneNumber(req.phoneNumber.value) == cs[id].phoneNumber
    ensures var after := cs[id := cs[id].(isActive := false)];
            && after[id] !in ListedContacts(after, search, matchesSearch, tags)
            && CreateContactOutcome(after, req).1 == ContactRejected(400, NumberExists)
  {
    var after := cs[id := cs[id].(isActive := false)];
    assert after[id].phoneNumber == cs[id].phoneNumber;
  }

  /** The body of `updateContact`; an absent field is `None`. */
  datatype ContactUpdate = ContactUpdate(name: Option<string>, phoneNumber: Option<string>, tags: Option<seq<string>>)

  datatype UpdateResponse = ContactUpdated(contact: Contact) | UpdateNotFound | UpdateFailed

  /** The contact after `findByIdAndUpdate(id, updateData)`: a truthy name replaces the name,
      a truthy number replaces the number once sanitized, and any tag list replaces the tags. */
  function Updated(c: Contact, u: ContactUpdate): (r: Contact)
    ensures r.isActive == c.isActive
    ensures r.name == if u.name.Some? && Truthy(u.name.value) then u.name.value else c.name
    ensures r.phoneNumber == if u.phoneNumber.Some? && Truthy(u.phoneNumber.value)
                             then SanitizePhoneNumber(u.phoneNumber.value) else c.phoneNumber
    ensures r.tags == if u.tags.Some? then u.tags.value else c.tags
  {
    Contact(if u.name.Some? && Truthy(u.name.value) then u.name.value else c.name,
            if u.phoneNumber.Some? && Truthy(u.phoneNumber.value) then SanitizePhoneNumber(u.phoneNumber.value) else c.phoneNumber,
            if u.tags.Some? then u.tags.value else c.tags,
            c.isActive)
  }

  /** Some contact other than `id` holds the number. */
  predicate TakenByOther(cs: seq<Contact>, id: nat, phone: string) {
    exists j :: 0 <= j < |cs| && j != id && cs[j].phoneNumber == phone
  }

  /** `updateContact`: build `updateData` field by field, then apply it. An unknown id is a
      404; a number held by another contact violates the unique index and the catch answers
      500. */
  method UpdateContact(contacts: ContactCollection, id: nat, u: ContactUpdate) returns (resp: UpdateResponse)
    modifies contacts
    ensures id >= |old(contacts.records)| ==> resp == UpdateNotFound && contacts.records == old(contacts.records)
    ensures id < |old(contacts.records)| ==>
              var c := Updated(old(contacts.records)[id], u);
              if TakenByOther(old(contacts.records), id, c.phoneNumber)
              then resp == UpdateFailed && contacts.records == old(contacts.records)
              else resp == ContactUpdated(c) && contacts.records == old(contacts.records)[id := c]
  {
    if id >= |contacts.records| {
      return UpdateNotFound;
    }
    var c := contacts.records[id];
    if u.name.Some? && Truthy(u.name.value) {
      c := c.(name := u.name.value);
    }
    if u.phoneNumber.Some? && Truthy(u.phoneNumber.value) {
      c := c.(phoneNumber := SanitizePhoneNumber(u.phoneNumber.value));
    }
    if u.tags.Some? {
      c := c.(tags := u.tags.value);
    }
    if TakenByOther(contacts.records, id, c.phoneNumber) {
      return UpdateFailed;
    }
    contacts.records := contacts.records[id := c];
    resp := ContactUpdated(c);
  }

  /** An update that goes through keeps stored numbers unique. */
  lemma UpdateKeepsPhonesUnique(cs: seq<Contact>, id: nat, u: ContactUpdate)
    requires UniquePhones(cs) && id < |cs|
    requires !TakenByOther(cs, id, Updated(cs[id], u).phoneNumber)
    ensures UniquePhones(cs[id := Updated(cs[id], u)])
  {
    var after := cs[id := Updated(cs[id], u)];
    forall i, j | 0 <= i < j < |after| ensures after[i].phoneNumber != after[j].phoneNumber {
      if i == id {
        assert after[j] == cs[j];
      } else if j == id {
        assert after[i] == cs[i];
      } else {
        assert after[i] == cs[i] && after[j] == cs[j];
      }
    }
  }

  // ---------------------------------------------------------------------------------------
  // Upload

  /** A parsed row: column header to cell text. */
  type Row = map<string, string>

  datatype UploadFile = UploadFile(originalName: string, rows: seq<Row>)

  /** A row that names a contact: `{ name, phoneNumber }` with the number sanitized. */
  datatype Candidate = Candidate(name: string, phoneNumber: string)
  datatype RowError = RowError(row: Row, reason: string)
  datatype Classified = Classified(toInsert: seq<Candidate>, duplicates: seq<Candidate>, errors: seq<RowError>)

  datatype UploadResponse =
    | UploadOk(inserted: nat, duplicates: nat, errors: nat, duplicatesList: seq<Candidate>, errorsList: seq<RowError>)
    | UploadRejected(message: string)

  const MissingNameOrPhone: string := "Missing name or phone number"
  const NoFile: string := "No file uploaded"
  const BadFormat: string := "Invalid file format. Only CSV and Excel files are supported"
  const ListLimit: nat := 10

  /** The row has a non-empty cell under `k`. */
  predicate HasTruthy(row: Row, k: string) {
    k in row && Truthy(row[k])
  }

  /** `row[k1] || row[k2] || ...`: the first truthy value among the keys, `None` when all are
      missing or empty. */
  function FirstTruthy(row: Row, keys: seq<string>): (r: Option<string>)
    ensures r.Some? ==> Truthy(r.value) && exists k :: k in keys && k in row && row[k] == r.value
    ensures r.None? <==> forall k :: k in keys ==> k !in row || !Truthy(row[k])
    ensures |keys| > 0 && keys[0] in row && Truthy(row[keys[0]]) ==> r == Some(row[keys[0]])
  {
    if keys == [] then None
    else if keys[0] in row && Truthy(row[keys[0]]) then Some(row[keys[0]])
    else
      var rest := FirstTruthy(row, keys[1..]);
      assert forall k :: k in keys ==> k == keys[0] || k in keys[1..];
      rest
  }

  /** The value found is the one under the first key whose cell is truthy: every key before
      it is missing or empty, as the `||` chain gives. */
  lemma {:induction false} FirstTruthyIsFirst(row: Row, keys: seq<string>)
    ensures var r := FirstTruthy(row, keys);
            r.Some? ==> exists j :: 0 <= j < |keys| && HasTruthy(row, keys[j]) && row[keys[j]] == r.value
                                    && forall i :: 0 <= i < j ==> !HasTruthy(row, keys[i])
  {
    if keys != [] && !HasTruthy(row, keys[0]) {
      FirstTruthyIsFirst(row, keys[1..]);
      var r := FirstTruthy(row, keys[1..]);
      if r.Some? {
        var j :| 0 <= j < |keys[1..]| && HasTruthy(row, keys[1..][j]) && row[keys[1..][j]] == r.value
                 && forall i :: 0 <= i < j ==> !HasTruthy(row, keys[1..][i]);
        assert keys[j + 1] == keys[1..][j];
        forall i | 0 <= i < j + 1 ensures !HasTruthy(row, keys[i]) {
          if i > 0 {
            assert keys[i] == keys[1..][i - 1];
          }
        }
      }
    }
  }

  function RowName(row: Row): Option<string> {
    FirstTruthy(row, ["name", "Name", "NAME"])
  }

  function RowPhone(row: Row): Option<string> {
    FirstTruthy(row, ["phone", "phoneNumber", "Phone", "PhoneNumber"])
  }

  datatype RowOutcome = Insert(candidate: Candidate) | Duplicate(candidate: Candidate) | Invalid(error: RowError)

  /** One row of the loop: a row without a name or a number is an error, one whose sanitized
      number is already stored is a duplicate, any other is to be inserted. */
  function ClassifyRow(cs: seq<Contact>, row: Row): (r: RowOutcome)
    ensures r.Invalid? <==> RowName(row).None? || RowPhone(row).None?
    ensures r.Invalid? ==> r.error == RowError(row, MissingNameOrPhone)
    ensures !r.Invalid? ==> r.candidate == Candidate(RowName(row).value, SanitizePhoneNumber(RowPhone(row).value))
    ensures r.Insert? ==> !PhoneTaken(cs, r.candidate.phoneNumber)
    ensures r.Duplicate? ==> PhoneTaken(cs, r.candidate.phoneNumber)
  {
    var name, phone := RowName(row), RowPhone(row);
    if name.None? || phone.None? then Invalid(RowError(row, MissingNameOrPhone))
    else
      var sanitized := SanitizePhoneNumber(phone.value);
      if PhoneTaken(cs, sanitized) then Duplicate(Candidate(name.value, sanitized))
      else Insert(Candidate(name.value, sanitized))
  }

  function Push(c: Classified, o: RowOutcome): Classified {
    match o
    case Insert(x) => c.(toInsert := c.toInsert + [x])
    case Duplicate(x) => c.(duplicates := c.duplicates + [x])
    case Invalid(e) => c.(errors := c.errors + [e])
  }

  /** The loop over the rows, each checked against the store only, never against the other
      rows of the file. */
  function Classify(cs: seq<Contact>, rows: seq<Row>): (r: Classified)
    ensures |r.toInsert| + |r.duplicates| + |r.errors| == |rows|
    ensures forall k :: 0 <= k < |r.toInsert| ==> !PhoneTaken(cs, r.toInsert[k].phoneNumber)
    ensures forall k :: 0 <= k < |r.duplicates| ==> PhoneTaken(cs, r.duplicates[k].phoneNumber)
    ensures forall k :: 0 <= k < |r.errors| ==>
              && r.errors[k].row in rows
              && (RowName(r.errors[k].row).None? || RowPhone(r.errors[k].row).None?)
  {
    if rows == [] then Classified([], [], [])
    else
      var prev := Classify(cs, rows[..|rows| - 1]);
      var row := rows[|rows| - 1];
      assert forall x :: x in rows[..|rows| - 1] ==> x in rows;
      Push(prev, ClassifyRow(cs, row))
  }

  function Merge(a: Classified, b: Classified): Classified {
    Classified(a.toInsert + b.toInsert, a.duplicates + b.duplicates, a.errors + b.errors)
  }

  /** Classifying a file is classifying each part of it and concatenating the three lists:
      a row's outcome depends on that row and the store alone. */
  lemma {:induction false} ClassifyConcat(cs: seq<Contact>, a: seq<Row>, b: seq<Row>)
    ensures Classify(cs, a + b) == Merge(Classify(cs, a), Classify(cs, b))
    decreases |b|
  {
    if b == [] {
      assert a + b == a;
    } else {
      var init := b[..|b| - 1];
      assert (a + b)[..|a + b| - 1] == a + init;
      assert (a + b)[|a + b| - 1] == b[|b| - 1];
      ClassifyConcat(cs, a, init);
      var left, mid := Classify(cs, a), Classify(cs, init);
      match ClassifyRow(cs, b[|b| - 1])
      case Insert(x) =>
        assert left.toInsert + mid.toInsert + [x] == left.toInsert + (mid.toInsert + [x]);
      case Duplicate(x) =>
        assert left.duplicates + mid.duplicates + [x] == left.duplicates + (mid.duplicates + [x]);
      case Invalid(e) =>
        assert left.errors + mid.errors + [e] == left.errors + (mid.errors + [e]);
    }
  }

  /** Each row lands in the list its own outcome names, right after the entries of the rows
      before it, and adds nothing to the other two lists. */
  lemma RowLandsInItsList(cs: seq<Contact>, rows: seq<Row>, j: nat)
    requires j < |rows|
    ensures var before, r := Classify(cs, rows[..j]), Classify(cs, rows);
            var upTo := Classify(cs, rows[..j + 1]);
            match ClassifyRow(cs, rows[j])
            case Insert(x) =>
              && |before.toInsert| < |r.toInsert| && r.toInsert[|before.toInsert|] == x
              && upTo.duplicates == before.duplicates && upTo.errors == before.errors
            case Duplicate(x) =>
              && |before.duplicates| < |r.duplicates| && r.duplicates[|before.duplicates|] == x
              && upTo.toInsert == before.toInsert && upTo.errors == before.errors
            case Invalid(e) =>
              && |before.errors| < |r.errors| && r.errors[|before.errors|] == e
              && upTo.toInsert == before.toInsert && upTo.duplicates == before.duplicates
  {
    assert rows == rows[..j + 1] + rows[j + 1..];
    assert rows[..j + 1][..j] == rows[..j];
    ClassifyConcat(cs, rows[..j + 1], rows[j + 1..]);
  }

  /** Some row of the file has outcome `o`. */
  predicate OutcomeOfSomeRow(cs: seq<Contact>, rows: seq<Row>, o: RowOutcome) {
    exists j :: 0 <= j < |rows| && ClassifyRow(cs, rows[j]) == o
  }

  lemma OutcomeOfLongerFile(cs: seq<Contact>, rows: seq<Row>, o: RowOutcome)
    requires rows != [] && OutcomeOfSomeRow(cs, rows[..|rows| - 1], o)
    ensures OutcomeOfSomeRow(cs, rows, o)
  {
    var j :| 0 <= j < |rows| - 1 && ClassifyRow(cs, rows[..|rows| - 1][j]) == o;
    assert rows[..|rows| - 1][j] == rows[j];
  }

  /** `o` is an entry of the list of its kind. */
  predicate EntryOf(c: Classified, o: RowOutcome) {
    match o
    case Insert(x) => x in c.toInsert
    case Duplicate(x) => x in c.duplicates
    case Invalid(e) => e in c.errors
  }

  /** Conversely, every entry of the three lists is the outcome of some row. */
  lemma {:induction false} EntriesComeFromRows(cs: seq<Contact>, rows: seq<Row>, o: RowOutcome)
    requires EntryOf(Classify(cs, rows), o)
    ensures OutcomeOfSomeRow(cs, rows, o)
  {
    var n := |rows| - 1;
    var init := rows[..n];
    var last := ClassifyRow(cs, rows[n]);
    assert Classify(cs, rows) == Push(Classify(cs, init), last);
    if o == last {
      assert ClassifyRow(cs, rows[n]) == o;
    } else {
      assert EntryOf(Classify(cs, init), o);
      EntriesComeFromRows(cs, init, o);
      OutcomeOfLongerFile(cs, rows, o);
    }
  }

  /** Two rows of one file with the same new number are both queued for insertion. */
  lemma RepeatedNewNumberIsInsertedTwice(cs: seq<Contact>, row: Row)
    requires RowName(row).Some? && RowPhone(row).Some?
    requires !PhoneTaken(cs, SanitizePhoneNumber(RowPhone(row).value))
    ensures var c := Candidate(RowName(row).value, SanitizePhoneNumber(RowPhone(row).value));
            Classify(cs, [row, row]).toInsert == [c, c]
  {
    var c := Candidate(RowName(row).value, SanitizePhoneNumber(RowPhone(row).value));
    var o := ClassifyRow(cs, row);
    assert o == Insert(c);
    assert [row][..0] == [];
    var first := Classify(cs, [row]);
    assert first == Push(Classified([], [], []), o);
    assert first.toInsert == [c];
    assert [row, row][..1] == [row];
    assert Classify(cs, [row, row]) == Push(first, o);
  }

  /** The rows loop as the handler runs it, pushing into three lists. */
  method ClassifyRows(cs: seq<Contact>, rows: seq<Row>) returns (r: Classified)
    ensures r == Classify(cs, rows)
  {
    var toInsert, duplicates, errors := [], [], [];
    var i := 0;
    while i < |rows|
      invariant 0 <= i <= |rows|
      invariant Classified(toInsert, duplicates, errors) == Classify(cs, rows[..i])
    {
      assert rows[..i + 1][..i] == rows[..i];
      var outcome := ClassifyRow(cs, rows[i]);
      if outcome.Invalid? {
        errors := errors + [outcome.error];
      } else if outcome.Duplicate? {
        duplicates := duplicates + [outcome.candidate];
      } else {
        toInsert := toInsert + [outcome.candidate];
      }
      i := i + 1;
    }
    assert rows[..i] == rows;
    r := Classified(toInsert, duplicates, errors);
  }

  function LowerAscii(c: char): char {
    if 'A' <= c <= 'Z' then (c as int + 32) as char else c
  }

  /** `name.split('.').pop().toLowerCase()`: the text after the last '.', lower-cased; a
      name without a '.' is its own extension. */
  function Extension(name: string): (r: string)
    ensures |r| <= |name|
    ensures '.' !in r
    ensures forall i :: 0 <= i < |r| ==> r[i] == LowerAscii(name[|name| - |r| + i])
    ensures |r| < |name| ==> name[|name| - |r| - 1] == '.'
  {
    if name == [] then []
    else if name[|name| - 1] == '.' then []
    else Extension(name[..|name| - 1]) + [LowerAscii(name[|name| - 1])]
  }

  predicate AcceptedFormat(name: string) {
    Extension(name) in {"csv", "xlsx", "xls"}
  }

  function LowerAll(s: string): (r: string)
    ensures |r| == |s|
  {
    seq(|s|, i requires 0 <= i < |s| => LowerAscii(s[i]))
  }

  /** The extension is the lower-cased text after the last '.'. */
  lemma {:induction false} ExtensionAfterLastDot(stem: string, ext: string)
    requires '.' !in ext
    ensures Extension(stem + ['.'] + ext) == LowerAll(ext)
  {
    if ext != [] {
      var n := |ext| - 1;
      assert ext[n] in ext;
      assert (stem + ['.'] + ext)[..|stem| + 1 + n] == stem + ['.'] + ext[..n];
      assert forall c :: c in ext[..n] ==> c in ext;
      ExtensionAfterLastDot(stem, ext[..n]);
      assert LowerAll(ext) == LowerAll(ext[..n]) + [LowerAscii(ext[n])];
    }
  }

  /** A name without a '.' is its own extension, lower-cased. */
  lemma {:induction false} ExtensionOfDotlessName(name: string)
    requires '.' !in name
    ensures Extension(name) == LowerAll(name)
  {
    if name != [] {
      var n := |name| - 1;
      assert name[n] in name;
      assert forall c :: c in name[..n] ==> c in name;
      ExtensionOfDotlessName(name[..n]);
      assert LowerAll(name) == LowerAll(name[..n]) + [LowerAscii(name[n])];
    }
  }

  /** So a file called just "csv" passes the format check. */
  lemma DotlessCsvIsAccepted()
    ensures AcceptedFormat("csv")
  {
    ExtensionOfDotlessName("csv");
    assert LowerAll("csv") == "csv";
  }

  function NewContactOf(c: Candidate): Contact {
    Contact(c.name, c.phoneNumber, [], true)
  }

  /** `uploadContacts`: refuse a missing file or an unknown extension, classify the rows,
      insert the new contacts in one batch and report the counts and the first ten
      duplicates and errors. */
  method UploadContacts(contacts: ContactCollection, file: Option<UploadFile>) returns (resp: UploadResponse)
    modifies contacts
    ensures file.None? ==> resp == UploadRejected(NoFile) && contacts.records == old(contacts.records)
    ensures file.Some? && !AcceptedFormat(file.value.originalName) ==>
              resp == UploadRejected(BadFormat) && contacts.records == old(contacts.records)
    ensures file.Some? && AcceptedFormat(file.value.originalName) ==>
              var c := Classify(old(contacts.records), file.value.rows);
              && contacts.records == old(contacts.records)
                                     + seq(|c.toInsert|, k requires 0 <= k < |c.toInsert| => NewContactOf(c.toInsert[k]))
              && resp == UploadOk(|c.toInsert|, |c.duplicates|, |c.errors|,
                                  Take(c.duplicates, ListLimit), Take(c.errors, ListLimit))
  {
    if file.None? {
      return UploadRejected(NoFile);
    }
    if !AcceptedFormat(file.value.originalName) {
      return UploadRejected(BadFormat);
    }
    var c := ClassifyRows(contacts.records, file.value.rows);
    if |c.toInsert| > 0 {
      contacts.records := contacts.records + seq(|c.toInsert|, k requires 0 <= k < |c.toInsert| => NewContactOf(c.toInsert[k]));
    }
    resp := UploadOk(|c.toInsert|, |c.duplicates|, |c.errors|, Take(c.duplicates, ListLimit), Take(c.errors, ListLimit));
  }

  // ---------------------------------------------------------------------------------------
  // Tags

  predicate NoDuplicates(s: seq<string>) {
    forall i, j :: 0 <= i < j < |s| ==> s[i] != s[j]
  }

  /** `$addToSet: { tags: { $each: add } }` on one contact: each new tag, in order, is
      appended unless the list already holds it. */
  function AddToSet(tags: seq<string>, add: seq<string>): (r: seq<string>)
    ensures |tags| <= |r| && r[..|tags|] == tags
    ensures forall t :: t in r <==> t in tags || t in add
    ensures NoDuplicates(tags) ==> NoDuplicates(r)
  {
    if add == [] then tags
    else
      var acc := AddToSet(tags, add[..|add| - 1]);
      var x := add[|add| - 1];
      assert forall t :: t in add <==> t in add[..|add| - 1] || t == x by {
        assert add == add[..|add| - 1] + [x];
      }
      if x in acc then acc else acc + [x]
  }

  /** Adding tags that are all present changes nothing. */
  lemma {:induction false} AddToSetOfPresent(tags: seq<string>, add: seq<string>)
    requires forall t :: t in add ==> t in tags
    ensures AddToSet(tags, add) == tags
  {
    if add != [] {
      assert forall t :: t in add[..|add| - 1] ==> t in add;
      AddToSetOfPresent(tags, add[..|add| - 1]);
      assert add[|add| - 1] in add;
    }
  }

  /** The union changes the list exactly when some new tag is missing from it. */
  lemma AddToSetChanges(tags: seq<string>, add: seq<string>)
    ensures AddToSet(tags, add) == tags <==> forall t :: t in add ==> t in tags
  {
    if forall t :: t in add ==> t in tags {
      AddToSetOfPresent(tags, add);
    }
  }

  /** Tagging twice with the same tags is tagging once. */
  lemma AddToSetIdempotent(tags: seq<string>, add: seq<string>)
    ensures AddToSet(AddToSet(tags, add), add) == AddToSet(tags, add)
  {
    AddToSetOfPresent(AddToSet(tags, add), add);
  }

  datatype TagRequest = TagRequest(contactIds: Option<seq<nat>>, tags: Option<seq<string>>)
  datatype TagResponse = Tagged(modifiedCount: nat) | TagRejected(message: string)

  const IdsRequired: string := "Contact IDs are required"
  const TagsRequired: string := "Tags are required"

  /** `Contact.updateMany({ _id: { $in: ids } }, { $addToSet: ... })` over the store. */
  function TagAll(cs: seq<Contact>, ids: seq<nat>, add: seq<string>): (r: seq<Contact>)
    ensures |r| == |cs|
    ensures forall i :: 0 <= i < |cs| && i !in ids ==> r[i] == cs[i]
    ensures forall i :: 0 <= i < |cs| && i in ids ==>
              r[i] == cs[i].(tags := AddToSet(cs[i].tags, add))
  {
    seq(|cs|, i requires 0 <= i < |cs| => if i in ids then cs[i].(tags := AddToSet(cs[i].tags, add)) else cs[i])
  }

  /** The `modifiedCount` of that update. The schema's `timestamps: true` makes Mongoose add
      `$set: { updatedAt: now }` to every `updateMany`, so each matched contact is modified,
      whether or not its tag list grows. */
  function ModifiedCount(cs: seq<Contact>, ids: seq<nat>): (r: nat)
    ensures r == |set i | 0 <= i < |cs| && i in ids|
  {
    if cs == [] then 0
    else
      var i := |cs| - 1;
      var rest := ModifiedCount(cs[..i], ids);
      assert (set j | 0 <= j < |cs| && j in ids) ==
             (set j | 0 <= j < i && j in ids) + (if i in ids then {i} else {});
      rest + (if i in ids then 1 else 0)
  }

  /** The count is the number of stored contacts the request names: ids beyond the store and
      repeated ids add nothing. */
  lemma {:induction false} ModifiedCountOfKnownIds(cs: seq<Contact>, ids: seq<nat>)
    requires forall k :: 0 <= k < |ids| ==> ids[k] < |cs|
    ensures ModifiedCount(cs, ids) == |set k | 0 <= k < |ids| :: ids[k]|
  {
    assert (set i | 0 <= i < |cs| && i in ids) == (set k | 0 <= k < |ids| :: ids[k]);
  }

  /** Repeating a tagging request changes no tag list, yet reports the same matched count
      again, since every matched contact is restamped. */
  lemma TagAllIdempotent(cs: seq<Contact>, ids: seq<nat>, add: seq<string>)
    ensures TagAll(TagAll(cs, ids, add), ids, add) == TagAll(cs, ids, add)
    ensures ModifiedCount(TagAll(cs, ids, add), ids) == ModifiedCount(cs, ids)
  {
    var once := TagAll(cs, ids, add);
    forall i | 0 <= i < |cs| && i in ids ensures AddToSet(once[i].tags, add) == once[i].tags {
      AddToSetIdempotent(cs[i].tags, add);
    }
  }

  /** `tagContacts`: both lists must be present and non-empty. */
  method TagContacts(contacts: ContactCollection, req: TagRequest) returns (resp: TagResponse)
    modifies contacts
    ensures req.contactIds.None? || |req.contactIds.value| == 0 ==>
              resp == TagRejected(IdsRequired) && contacts.records == old(contacts.records)
    ensures req.contactIds.Some? && |req.contactIds.value| > 0 && (req.tags.None? || |req.tags.value| == 0) ==>
              resp == TagRejected(TagsRequired) && contacts.records == old(contacts.records)
    ensures req.contactIds.Some? && |req.contactIds.value| > 0 && req.tags.Some? && |req.tags.value| > 0 ==>
              && contacts.records == TagAll(old(contacts.records), req.contactIds.value, req.tags.value)
              && resp == Tagged(ModifiedCount(old(contacts.records), req.contactIds.value))
  {
    if req.contactIds.None? || |req.contactIds.value| == 0 {
      return TagRejected(IdsRequired);
    }
    if req.tags.None? || |req.tags.value| == 0 {
      return TagRejected(TagsRequired);
    }
    var modified := ModifiedCount(contacts.records, req.contactIds.value);
    contacts.records := TagAll(contacts.records, req.contactIds.value, req.tags.value);
    resp := Tagged(modified);
  }

  /** `getTags`: every distinct non-empty tag of any stored contact. */
  function GetTags(cs: seq<Contact>): (r: set<string>)
    ensures forall t :: t in r <==> Truthy(t) && exists i :: 0 <= i < |cs| && t in cs[i].tags
  {
    if cs == [] then {}
    else
      var i := |cs| - 1;
      var rest := GetTags(cs[..i]);
      assert forall j :: 0 <= j < i ==> cs[..i][j] == cs[j];
      rest + set t | t in cs[i].tags && Truthy(t)
  }

  /** After a tagging request every non-empty new tag is listed, provided one id matched. */
  lemma TaggedTagsAreListed(cs: seq<Contact>, ids: seq<nat>, add: seq<string>, id: nat)
    requires id < |cs| && id in ids
    ensures forall t :: t in add && Truthy(t) ==> t in GetTags(TagAll(cs, ids, add))
  {
    var r := TagAll(cs, ids, add);
    assert r[id].tags == AddToSet(cs[id].tags, add);
  }
}
