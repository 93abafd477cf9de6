/** The Contact model (backend/src/models/Contact.js): the contact record, its collection,
    and the two phone-number normalisations, `sanitizePhoneNumber` (used before a number is
    stored or looked up) and `formatPhoneNumber` (used when a campaign addresses a contact). */
module ContactModel {
  import opened Common

  datatype Contact = Contact(name: string, phoneNumber: string, tags: seq<string>, isActive: bool)

  /** The `contacts` collection; a contact's id is its position. */
  class ContactCollection {
    var records: seq<Contact>

    constructor (records: seq<Contact>)
      ensures this.records == records
    {
      this.records := records;
    }
  }

  /** The characters the regular expression class `\s` matches in JavaScript. */
  predicate IsWhitespace(c: char) {
    || c == ' ' || c == '\t' || c == '\n' || c == '\r' || c == '\U{0B}' || c == '\U{0C}'
    || c == '\U{A0}' || c == '\U{1680}' || ('\U{2000}' <= c <= '\U{200A}')
    || c == '\U{2028}' || c == '\U{2029}' || c == '\U{202F}' || c == '\U{205F}'
    || c == '\U{3000}' || c == '\U{FEFF}'
  }

  predicate IsDash(c: char) {
    c == '-'
  }

  /** `s.replace(/x/g, '')` for a one-character class `x`: every matching character goes,
      every other character stays, in order. */
  function RemoveAll(s: string, drop: char -> bool): (r: string)
    ensures |r| <= |s|
    ensures forall i :: 0 <= i < |r| ==> !drop(r[i])
  {
    if s == [] then []
    else if drop(s[0]) then RemoveAll(s[1..], drop)
    else [s[0]] + RemoveAll(s[1..], drop)
  }

  /** A character the class does not match is not removed. */
  lemma {:induction false} RemoveAllKeepsOthers(s: string, drop: char -> bool, c: char)
    requires c in s && !drop(c)
    ensures c in RemoveAll(s, drop)
  {
    if s[0] != c {
      RemoveAllKeepsOthers(s[1..], drop, c);
    }
  }

  /** The replace works character by character: it distributes over concatenation ... */
  lemma {:induction false} RemoveAllConcat(a: string, b: string, drop: char -> bool)
    ensures RemoveAll(a + b, drop) == RemoveAll(a, drop) + RemoveAll(b, drop)
  {
    if a == [] {
      assert a + b == b;
    } else {
      assert (a + b)[0] == a[0] && (a + b)[1..] == a[1..] + b;
      RemoveAllConcat(a[1..], b, drop);
    }
  }

  /** ... and on one character it drops that character exactly when the class matches it. */
  lemma RemoveAllOfOne(c: char, drop: char -> bool)
    ensures RemoveAll([c], drop) == if drop(c) then [] else [c]
  {
  }

  /** Every occurrence of a character the class does not match survives. */
  lemma {:induction false} RemoveAllKeepsCount(s: string, drop: char -> bool, c: char)
    requires !drop(c)
    ensures multiset(RemoveAll(s, drop))[c] == multiset(s)[c]
  {
    if s != [] {
      RemoveAllKeepsCount(s[1..], drop, c);
      assert s == [s[0]] + s[1..];
    }
  }

  /** Prepends the Indian country code when the number has none: a number that already
      starts with '+' is kept, one starting with "91" gains '+', any other gains "+91". */
  function AddCountryCode(p: string): (r: string)
    ensures |r| > 0 && r[0] == '+'
    ensures |p| <= |r| && r[|r| - |p|..] == p
    ensures r == p <==> StartsWith(p, "+")
    ensures !StartsWith(p, "+") ==> (r == "+" + p <==> StartsWith(p, "91"))
    ensures !StartsWith(p, "+") && !StartsWith(p, "91") ==> r == "+91" + p
  {
    if StartsWith(p, "+") then p
    else if StartsWith(p, "91") then "+" + p
    else "+91" + p
  }

  /** `Contact.sanitizePhoneNumber`: drop whitespace and dashes, then add the country code. */
  function SanitizePhoneNumber(phone: string): (r: string)
    ensures |r| > 0 && r[0] == '+'
    ensures forall i :: 0 <= i < |r| ==> !IsWhitespace(r[i]) && !IsDash(r[i])
  {
    var spaceless := RemoveAll(phone, IsWhitespace);
    var stripped := RemoveAll(spaceless, IsDash);
    RemoveAllKeeps(spaceless, IsDash, c => !IsWhitespace(c));
    AddCountryCodeKeeps(stripped, c => !IsWhitespace(c) && !IsDash(c));
    AddCountryCode(stripped)
  }

  /** `contact.formatPhoneNumber()`: drop whitespace (dashes stay), then add the country code. */
  function FormatPhoneNumber(phone: string): (r: string)
    ensures |r| > 0 && r[0] == '+'
    ensures forall i :: 0 <= i < |r| ==> !IsWhitespace(r[i])
  {
    var stripped := RemoveAll(phone, IsWhitespace);
    AddCountryCodeKeeps(stripped, c => !IsWhitespace(c));
    AddCountryCode(stripped)
  }

  /** A property of every character survives the removal of some of them. */
  lemma {:induction false} RemoveAllKeeps(s: string, drop: char -> bool, ok: char -> bool)
    requires forall i :: 0 <= i < |s| ==> ok(s[i])
    ensures forall i :: 0 <= i < |RemoveAll(s, drop)| ==> ok(RemoveAll(s, drop)[i])
  {
    if s != [] {
      RemoveAllKeeps(s[1..], drop, ok);
    }
  }

  /** The country code adds only the characters '+', '9' and '1'. */
  lemma AddCountryCodeKeeps(p: string, ok: char -> bool)
    requires ok('+') && ok('9') && ok('1')
    requires forall i :: 0 <= i < |p| ==> ok(p[i])
    ensures forall i :: 0 <= i < |AddCountryCode(p)| ==> ok(AddCountryCode(p)[i])
  {
    var r := AddCountryCode(p);
    assert forall i :: |r| - |p| <= i < |r| ==> r[i] == p[i - (|r| - |p|)];
  }

  lemma {:induction false} RemoveAllOfClean(s: string, drop: char -> bool)
    requires forall i :: 0 <= i < |s| ==> !drop(s[i])
    ensures RemoveAll(s, drop) == s
  {
    if s != [] {
      RemoveAllOfClean(s[1..], drop);
    }
  }

  /** Sanitizing an already sanitized number changes nothing. */
  lemma SanitizeIdempotent(phone: string)
    ensures SanitizePhoneNumber(SanitizePhoneNumber(phone)) == SanitizePhoneNumber(phone)
  {
    var s := SanitizePhoneNumber(phone);
    RemoveAllOfClean(s, IsWhitespace);
    RemoveAllOfClean(s, IsDash);
  }

  /** The campaign path formats numbers that were stored sanitized; formatting leaves them as
      they are, so a message goes to exactly the stored number. */
  lemma FormatFixesSanitized(phone: string)
    ensures FormatPhoneNumber(SanitizePhoneNumber(phone)) == SanitizePhoneNumber(phone)
  {
    RemoveAllOfClean(SanitizePhoneNumber(phone), IsWhitespace);
  }

  /** Formatting keeps every dash of its input: the number of dashes does not change. */
  lemma FormatKeepsDashes(phone: string)
    ensures multiset(FormatPhoneNumber(phone))['-'] == multiset(phone)['-']
  {
    var stripped := RemoveAll(phone, IsWhitespace);
    RemoveAllKeepsCount(phone, IsWhitespace, '-');
    var prefix := if StartsWith(stripped, "+") then "" else if StartsWith(stripped, "91") then "+" else "+91";
    assert AddCountryCode(stripped) == prefix + stripped;
    assert multiset(prefix)['-'] == 0;
  }

  /** Sanitizing leaves no dash. */
  lemma SanitizeDropsDashes(phone: string)
    ensures '-' !in SanitizePhoneNumber(phone)
  {
    var s := SanitizePhoneNumber(phone);
    assert forall i :: 0 <= i < |s| ==> s[i] != '-';
  }

  lemma {:induction false} RemovalsCommute(s: string)
    ensures RemoveAll(RemoveAll(s, IsWhitespace), IsDash) == RemoveAll(RemoveAll(s, IsDash), IsWhitespace)
  {
    if s != [] {
      RemovalsCommute(s[1..]);
    }
  }

  /** Sanitizing is formatting a number with its dashes removed first. */
  lemma SanitizeIsFormatWithoutDashes(phone: string)
    ensures SanitizePhoneNumber(phone) == FormatPhoneNumber(RemoveAll(phone, IsDash))
  {
    RemovalsCommute(phone);
  }
}
