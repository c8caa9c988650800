/**
 * The contact and pickup-address screen: the form record, the sector rule tied
 * to the locality, the seven required-field checks, the composed address and
 * the street-name suggestions.
 */
module LocationForm {
  import opened Wrappers
  import opened JsText

  /** The capital, whose addresses carry a sector from 1 to 6. */
  const Bucharest: string := "București"

  /** The sector code forced for every locality outside the capital. */
  const CountyCode: string := "IF"

  const BucharestSectors: seq<string> := ["1", "2", "3", "4", "5", "6"]

  const StreetTypes: seq<string> := ["Str.", "Bd.", "Cal.", "Intr.", "Sos."]

  /** At most this many street suggestions are shown. */
  const MaxSuggestions: nat := 15

  /** The values of the form's inputs. */
  datatype Form = Form(
    fullName: string,
    phone: string,
    email: string,
    city: string,
    sector: string,
    streetType: string,
    streetName: string,
    number: string,
    building: string,
    scara: string,
    floor: string,
    intercom: string,
    apartment: string)

  /** What the screen hands on: the contact fields and the composed address. */
  datatype Contact = Contact(fullName: string, phone: string, email: string, address: string)

  /** The free-text inputs of the form. */
  datatype TextField =
    | FullNameInput | PhoneInput | EmailInput | StreetNameInput | NumberInput
    | BuildingInput | ScaraInput | FloorInput | IntercomInput | ApartmentInput

  /** The keys of the error map: the seven required fields. */
  datatype ErrorKey = FullNameKey | PhoneKey | EmailKey | CityKey | SectorKey | StreetNameKey | NumberKey

  /** The form as the screen opens: contact fields from the order so far,
      the capital with no sector, "Str." and floor "0". */
  function InitialForm(initial: Contact): (f: Form)
    ensures f.city == Bucharest && f.sector == "" && f.floor == "0"
  {
    Form(initial.fullName, initial.phone, initial.email, Bucharest, "", "Str.", "", "", "", "", "0", "", "")
  }

  /** The form after typing `v` into one text input. */
  function WithText(f: Form, field: TextField, v: string): Form
  {
    match field
    case FullNameInput => f.(fullName := v)
    case PhoneInput => f.(phone := v)
    case EmailInput => f.(email := v)
    case StreetNameInput => f.(streetName := v)
    case NumberInput => f.(number := v)
    case BuildingInput => f.(building := v)
    case ScaraInput => f.(scara := v)
    case FloorInput => f.(floor := v)
    case IntercomInput => f.(intercom := v)
    case ApartmentInput => f.(apartment := v)
  }

  // ---------------------------------------------------------------------------
  // The sector rule

  /** The sector after the locality changes to `city`: forced to the county code
      outside the capital, cleared if the county code is carried into the capital. */
  function SectorAfterCityChange(city: string, sector: string): (s: string)
    ensures city != Bucharest ==> s == CountyCode
    ensures city == Bucharest && sector == CountyCode ==> s == ""
    ensures city == Bucharest && sector != CountyCode ==> s == sector
  {
    if city != Bucharest then CountyCode
    else if sector == CountyCode then ""
    else sector
  }

  /** Outside the capital the sector is the county code; in the capital it is
      empty or one of the six sectors. */
  predicate SectorConsistent(f: Form)
  {
    && (f.city != Bucharest ==> f.sector == CountyCode)
    && (f.city == Bucharest ==> f.sector == "" || f.sector in BucharestSectors)
  }

  /** Changing the locality keeps the sector consistent with it. */
  lemma CityChangeKeepsSectorConsistent(f: Form, city: string)
    requires SectorConsistent(f)
    ensures SectorConsistent(f.(city := city, sector := SectorAfterCityChange(city, f.sector)))
  {
  }

  // ---------------------------------------------------------------------------
  // The e-mail pattern ^\S+@\S+\.\S+$

  /** One element of an anchored pattern: a literal character, or `\S+`. */
  datatype PatternItem = Literal(c: char) | NonSpaceRun

  const EmailPattern: seq<PatternItem> :=
    [NonSpaceRun, Literal('@'), NonSpaceRun, Literal('.'), NonSpaceRun]

  /** Whether the whole of `s` matches `pattern`, trying every length for `\S+`. */
  function Matches(pattern: seq<PatternItem>, s: string): bool
    decreases |pattern|, |s|
  {
    if |pattern| == 0 then |s| == 0
    else
      match pattern[0]
      case Literal(c) => |s| > 0 && s[0] == c && Matches(pattern[1..], s[1..])
      case NonSpaceRun =>
        && |s| > 0 && !IsSpace(s[0])
        && (Matches(pattern[1..], s[1..]) || Matches(pattern, s[1..]))
  }

  /** The shape the e-mail pattern describes: no white space anywhere, and an '@'
      and a later '.' with at least one character before, between and after them. */
  predicate EmailShape(s: string)
  {
    && NoSpace(s)
    && exists i, j :: 0 < i && i + 1 < j && j + 1 < |s| && s[i] == '@' && s[j] == '.'
  }

  /** `\S+` followed by the rest of a pattern. */
  lemma NonSpaceRunSplit(rest: seq<PatternItem>, s: string)
    ensures Matches([NonSpaceRun] + rest, s) <==>
      exists k :: 1 <= k <= |s| && NoSpace(s[..k]) && Matches(rest, s[k..])
  {
    if Matches([NonSpaceRun] + rest, s) {
      var k := NonSpaceRunPrefix(rest, s);
    }
    if exists k :: 1 <= k <= |s| && NoSpace(s[..k]) && Matches(rest, s[k..]) {
      var k :| 1 <= k <= |s| && NoSpace(s[..k]) && Matches(rest, s[k..]);
      NonSpaceRunFrom(rest, s, k);
    }
  }

  /** A match of `\S+` and the rest consumes some non-empty run without white space first. */
  lemma {:induction false} NonSpaceRunPrefix(rest: seq<PatternItem>, s: string) returns (k: int)
    requires Matches([NonSpaceRun] + rest, s)
    ensures 1 <= k <= |s| && NoSpace(s[..k]) && Matches(rest, s[k..])
  {
    var p := [NonSpaceRun] + rest;
    assert p[1..] == rest;
    if Matches(rest, s[1..]) {
      k := 1;
    } else {
      var k' := NonSpaceRunPrefix(rest, s[1..]);
      k := k' + 1;
      assert s[..k] == [s[0]] + s[1..][..k'];
      assert s[k..] == s[1..][k'..];
    }
  }

  /** A non-empty run without white space followed by a match of the rest matches `\S+` and the rest. */
  lemma {:induction false} NonSpaceRunFrom(rest: seq<PatternItem>, s: string, k: int)
    requires 1 <= k <= |s| && NoSpace(s[..k]) && Matches(rest, s[k..])
    ensures Matches([NonSpaceRun] + rest, s)
  {
    var p := [NonSpaceRun] + rest;
    assert p[1..] == rest;
    assert !IsSpace(s[..k][0]);
    if k > 1 {
      assert s[1..][..k - 1] == s[..k][1..];
      assert s[1..][k - 1..] == s[k..];
      NonSpaceRunFrom(rest, s[1..], k - 1);
    }
  }

  /** A trailing `\S+` matches exactly the non-empty strings without white space. */
  lemma LastNonSpaceRun(s: string)
    ensures Matches([NonSpaceRun], s) <==> |s| > 0 && NoSpace(s)
  {
    NonSpaceRunSplit([], s);
    if |s| > 0 && NoSpace(s) {
      assert s[..|s|] == s;
    }
  }

  /** A string the e-mail pattern accepts has the e-mail shape. */
  lemma MatchedEmailHasShape(s: string)
    requires Matches(EmailPattern, s)
    ensures EmailShape(s)
  {
    var afterAt := [NonSpaceRun, Literal('.'), NonSpaceRun];
    assert EmailPattern == [NonSpaceRun] + ([Literal('@')] + afterAt);
    var i := NonSpaceRunPrefix([Literal('@')] + afterAt, s);
    assert ([Literal('@')] + afterAt)[1..] == afterAt;
    var t := s[i + 1..];
    assert Matches(afterAt, t);
    var k, u := AfterAtSplit(t);
    var j := i + 1 + k;
    assert s[i] == '@';
    assert s[j] == t[k];
    forall x | 0 <= x < |s|
      ensures !IsSpace(s[x])
    {
      if x < i {
        assert s[x] == s[..i][x];
      } else if i < x < j {
        assert s[x] == t[..k][x - i - 1];
      } else if j < x {
        assert s[x] == u[x - j - 1];
      }
    }
  }

  /** The part after the '@': `\S+\.\S+` splits at a '.' into two runs without white space. */
  lemma AfterAtSplit(t: string) returns (k: int, u: string)
    requires Matches([NonSpaceRun, Literal('.'), NonSpaceRun], t)
    ensures 1 <= k && k + 1 < |t| && t[k] == '.' && u == t[k + 1..]
    ensures NoSpace(t[..k]) && NoSpace(u)
  {
    var afterDot := [NonSpaceRun];
    assert [NonSpaceRun, Literal('.'), NonSpaceRun] == [NonSpaceRun] + ([Literal('.')] + afterDot);
    k := NonSpaceRunPrefix([Literal('.')] + afterDot, t);
    assert ([Literal('.')] + afterDot)[1..] == afterDot;
    u := t[k + 1..];
    assert t[k..][1..] == u;
    LastNonSpaceRun(u);
  }

  /** The part after the '@': two runs without white space around a '.' match `\S+\.\S+`. */
  lemma AfterAtMatches(t: string, k: int)
    requires NoSpace(t)
    requires 1 <= k && k + 1 < |t| && t[k] == '.'
    ensures Matches([NonSpaceRun, Literal('.'), NonSpaceRun], t)
  {
    var afterDot := [NonSpaceRun];
    var u := t[k + 1..];
    assert t[k..][1..] == u;
    assert NoSpace(u) by {
      forall x | 0 <= x < |u| ensures !IsSpace(u[x]) { assert u[x] == t[k + 1 + x]; }
    }
    LastNonSpaceRun(u);
    assert ([Literal('.')] + afterDot)[1..] == afterDot;
    assert Matches([Literal('.')] + afterDot, t[k..]);
    assert NoSpace(t[..k]) by {
      forall x | 0 <= x < k ensures !IsSpace(t[..k][x]) { assert t[..k][x] == t[x]; }
    }
    assert [NonSpaceRun, Literal('.'), NonSpaceRun] == [NonSpaceRun] + ([Literal('.')] + afterDot);
    NonSpaceRunFrom([Literal('.')] + afterDot, t, k);
  }

  /** A string with the e-mail shape is accepted by the e-mail pattern. */
  lemma ShapedEmailMatches(s: string, i: int, j: int)
    requires NoSpace(s)
    requires 0 < i && i + 1 < j && j + 1 < |s| && s[i] == '@' && s[j] == '.'
    ensures Matches(EmailPattern, s)
  {
    var afterAt := [NonSpaceRun, Literal('.'), NonSpaceRun];
    var t := s[i + 1..];
    assert NoSpace(t) by {
      forall x | 0 <= x < |t| ensures !IsSpace(t[x]) { assert t[x] == s[i + 1 + x]; }
    }
    AfterAtMatches(t, j - i - 1);
    assert s[i..][1..] == t;
    assert ([Literal('@')] + afterAt)[1..] == afterAt;
    assert Matches([Literal('@')] + afterAt, s[i..]);
    assert NoSpace(s[..i]) by {
      forall x | 0 <= x < i ensures !IsSpace(s[..i][x]) { assert s[..i][x] == s[x]; }
    }
    assert EmailPattern == [NonSpaceRun] + ([Literal('@')] + afterAt);
    NonSpaceRunFrom([Literal('@')] + afterAt, s, i);
  }

  /** Which strings the e-mail check accepts. */
  lemma EmailPatternMeaning(s: string)
    ensures Matches(EmailPattern, s) <==> EmailShape(s)
  {
    if Matches(EmailPattern, s) {
      MatchedEmailHasShape(s);
    }
    if EmailShape(s) {
      var i, j :| 0 < i && i + 1 < j && j + 1 < |s| && s[i] == '@' && s[j] == '.';
      ShapedEmailMatches(s, i, j);
    }
  }

  // ---------------------------------------------------------------------------
  // Validation

  /** The check of one required field fails. */
  predicate Fails(f: Form, k: ErrorKey)
  {
    match k
    case FullNameKey => f.fullName == ""
    case PhoneKey => f.phone == "" || |f.phone| < 10
    case EmailKey => f.email == "" || !Matches(EmailPattern, f.email)
    case CityKey => f.city == ""
    case SectorKey => f.sector == ""
    case StreetNameKey => f.streetName == ""
    case NumberKey => f.number == ""
  }

  /** The message shown under a field whose check fails. */
  function Message(k: ErrorKey): string
  {
    match k
    case FullNameKey => "NUME COMPLET OBLIGATORIU"
    case PhoneKey => "TELEFON OBLIGATORIU (MIN. 10 CIFRE)"
    case EmailKey => "EMAIL VALID OBLIGATORIU"
    case CityKey => "LOCALITATE OBLIGATORIE"
    case SectorKey => "SECTOR OBLIGATORIU"
    case StreetNameKey => "NUME STRADĂ OBLIGATORIU"
    case NumberKey => "NUMĂR OBLIGATORIU"
  }

  /** The phone check looks at the length only: at least ten characters of any kind. */
  lemma PhoneCheckIsLengthOnly(f: Form)
    ensures Fails(f, PhoneKey) <==> |f.phone| < 10
  {
  }

  /** The e-mail check fails exactly when the address does not have the e-mail shape. */
  lemma EmailCheck(f: Form)
    ensures Fails(f, EmailKey) <==> !EmailShape(f.email)
  {
    EmailPatternMeaning(f.email);
  }

  /** Every field check of `validate`. */
  const AllChecks: set<ErrorKey> :=
    {FullNameKey, PhoneKey, EmailKey, CityKey, SectorKey, StreetNameKey, NumberKey}

  /** The `newErrors` map of `validate`: every check runs, and each failing field
      gets its own message. */
  function ValidationErrors(f: Form): (errors: map<ErrorKey, string>)
    ensures forall k :: k in errors <==> Fails(f, k)
    ensures forall k :: k in errors ==> errors[k] == Message(k)
  {
    map k | k in AllChecks && Fails(f, k) :: Message(k)
  }

  // ---------------------------------------------------------------------------
  // The composed address

  /** `, <label> <value>` when the value is non-empty, nothing otherwise. */
  function Segment(tag: string, value: string): string
  {
    if value == "" then "" else tag + value
  }

  /** The required part: locality, sector, street and number. */
  function BaseAddress(f: Form): string
  {
    f.city + ", Sector " + f.sector + ", " + f.streetType + " " + f.streetName + ", Nr. " + f.number
  }

  /** The address handed on: the required part, then building, staircase, floor,
      apartment and intercom, each only when filled in. */
  function ComposeAddress(f: Form): string
  {
    BaseAddress(f)
    + Segment(", Bl. ", f.building) + Segment(", Sc. ", f.scara) + Segment(", Et. ", f.floor)
    + Segment(", Ap. ", f.apartment) + Segment(", Int. ", f.intercom)
  }

  /** The address opens with the locality and its sector, then the street type. */
  lemma AddressStartsWithLocality(f: Form)
    ensures var head := f.city + ", Sector " + f.sector + ", " + f.streetType;
      |head| <= |ComposeAddress(f)| && ComposeAddress(f)[..|head|] == head
  {
    var head := f.city + ", Sector " + f.sector + ", " + f.streetType;
    var tail := " " + f.streetName + ", Nr. " + f.number
      + Segment(", Bl. ", f.building) + Segment(", Sc. ", f.scara) + Segment(", Et. ", f.floor)
      + Segment(", Ap. ", f.apartment) + Segment(", Int. ", f.intercom);
    assert ComposeAddress(f) == head + tail;
  }

  /** With every optional field empty the address is just the required part. */
  lemma AddressWithoutOptionalFields(f: Form)
    requires f.building == "" && f.scara == "" && f.floor == "" && f.apartment == "" && f.intercom == ""
    ensures ComposeAddress(f) == BaseAddress(f)
  {
  }

  /** The floor starts as "0", so unless it is cleared the address ends in ", Et. 0"
      when the other optional fields stay empty. */
  lemma DefaultFloorAppears(f: Form)
    requires f.building == "" && f.scara == "" && f.floor == "0" && f.apartment == "" && f.intercom == ""
    ensures ComposeAddress(f) == BaseAddress(f) + ", Et. 0"
  {
  }

  // ---------------------------------------------------------------------------
  // Street suggestions

  /** The streets of `db` whose lower-cased name starts with `query`, in order. */
  function MatchingStreets(db: seq<string>, query: string): (r: seq<string>)
    ensures |r| <= |db|
    ensures forall s :: s in r ==> s in db && StartsWith(ToLower(s), query)
    ensures forall s :: s in db && StartsWith(ToLower(s), query) ==> s in r
  {
    if |db| == 0 then []
    else if StartsWith(ToLower(db[0]), query) then [db[0]] + MatchingStreets(db[1..], query)
    else MatchingStreets(db[1..], query)
  }

  lemma {:induction false} MatchingStreetsInOrder(db: seq<string>, query: string)
    ensures IsSubsequence(MatchingStreets(db, query), db)
  {
    if |db| > 0 {
      MatchingStreetsInOrder(db[1..], query);
      var rest := MatchingStreets(db[1..], query);
      if StartsWith(ToLower(db[0]), query) {
        assert ([db[0]] + rest)[1..] == rest;
      } else if |rest| > 0 {
        assert rest[0] == db[1..][0] || !(rest[0] == db[1..][0]);
      }
    }
  }

  /** The `filteredStreets` memo: nothing for a blank query, otherwise the first
      fifteen streets whose lower-cased name starts with the trimmed, lower-cased query. */
  function FilteredStreets(db: seq<string>, streetName: string): (r: seq<string>)
    ensures |r| <= MaxSuggestions
    ensures Trim(streetName) == "" ==> r == []
    ensures forall s :: s in r ==> s in db && StartsWith(ToLower(s), ToLower(Trim(streetName)))
    ensures var query := ToLower(Trim(streetName));
      |query| > 0 && |MatchingStreets(db, query)| > MaxSuggestions ==> r == MatchingStreets(db, query)[..MaxSuggestions]
    ensures var query := ToLower(Trim(streetName));
      |query| > 0 && |MatchingStreets(db, query)| <= MaxSuggestions ==> r == MatchingStreets(db, query)
  {
    var query := ToLower(Trim(streetName));
    if |query| == 0 then []
    else
      var all := MatchingStreets(db, query);
      if |all| <= MaxSuggestions then all else all[..MaxSuggestions]
  }

  /** The suggestions keep the database order, and when there are at most fifteen
      matches every matching street is suggested. */
  lemma SuggestionsInOrderAndComplete(db: seq<string>, streetName: string)
    ensures IsSubsequence(FilteredStreets(db, streetName), db)
    ensures var query := ToLower(Trim(streetName));
      |query| > 0 && |MatchingStreets(db, query)| <= MaxSuggestions ==>
        forall s :: s in db && StartsWith(ToLower(s), query) ==> s in FilteredStreets(db, streetName)
  {
    var query := ToLower(Trim(streetName));
    if |query| > 0 {
      MatchingStreetsInOrder(db, query);
      var all := MatchingStreets(db, query);
      if |all| > MaxSuggestions {
        PrefixOfSubsequence(all, db, MaxSuggestions);
      }
    }
  }

  // ---------------------------------------------------------------------------
  // The screen's state

  class LocationForm {
    /** The street table the suggestions come from, in its display order. */
    const streets: seq<string>
    var form: Form
    var errors: map<ErrorKey, string>

    /** The sector matches the locality and the street type is one of the five offered. */
    ghost predicate Valid()
      reads this
    {
      SectorConsistent(form) && form.streetType in StreetTypes
    }

    constructor (initial: Contact, streets: seq<string>)
      ensures Valid()
      ensures form == InitialForm(initial) && errors == map[] && this.streets == streets
    {
      this.streets := streets;
      form := InitialForm(initial);
      errors := map[];
    }

    /** Typing into a text input (or picking a suggested street) changes that field only. */
    method EditText(field: TextField, v: string)
      requires Valid()
      modifies this
      ensures Valid()
      ensures form == WithText(old(form), field, v) && errors == old(errors)
    {
      form := WithText(form, field, v);
    }

    /** Choosing a locality; when it differs from the current one, the sector
        effect then applies the sector rule. */
    method SelectCity(city: string)
      requires Valid()
      modifies this
      ensures Valid() && errors == old(errors)
      ensures city == old(form).city ==> form == old(form)
      ensures city != old(form).city ==>
        form == old(form).(city := city, sector := SectorAfterCityChange(city, old(form).sector))
    {
      if city != form.city {
        form := form.(city := city);
        form := form.(sector := SectorAfterCityChange(city, form.sector));
      }
    }

    /** Choosing a sector: the list offers "" and "1".."6" and is disabled outside
        the capital, where nothing changes. */
    method SelectSector(sector: string)
      requires Valid()
      requires sector == "" || sector in BucharestSectors
      modifies this
      ensures Valid() && errors == old(errors)
      ensures form == if old(form).city == Bucharest then old(form).(sector := sector) else old(form)
    {
      if form.city == Bucharest {
        form := form.(sector := sector);
      }
    }

    /** Choosing one of the five street types. */
    method SelectStreetType(streetType: string)
      requires Valid() && streetType in StreetTypes
      modifies this
      ensures Valid() && errors == old(errors)
      ensures form == old(form).(streetType := streetType)
    {
      form := form.(streetType := streetType);
    }

    /** The current street suggestions. */
    function Suggestions(): seq<string>
      reads this
    {
      FilteredStreets(streets, form.streetName)
    }

    /** `validate`: the error map is replaced by the failing checks' messages;
        the answer is whether the map is empty. */
    method Validate() returns (ok: bool)
      requires Valid()
      modifies this
      ensures Valid() && form == old(form)
      ensures forall k :: k in errors <==> Fails(form, k)
      ensures forall k :: k in errors ==> errors[k] == Message(k)
      ensures ok <==> errors == map[]
      ensures ok <==> forall k :: !Fails(form, k)
    {
      errors := ValidationErrors(form);
      ok := errors == map[];
      if !ok {
        var k :| k in errors;
        assert Fails(form, k);
      }
    }

    /** `handleNextClick`: only a form that passes every check is handed on, with
        the contact fields unchanged and the composed address. */
    method ClickNext() returns (next: Option<Contact>)
      requires Valid()
      modifies this
      ensures Valid() && form == old(form)
      ensures forall k :: k in errors <==> Fails(form, k)
      ensures next.Some? <==> errors == map[]
      ensures next.Some? ==>
        next.value == Contact(form.fullName, form.phone, form.email, ComposeAddress(form))
      ensures next.Some? ==>
        && form.fullName != "" && |form.phone| >= 10 && EmailShape(form.email)
        && form.sector != "" && form.streetName != "" && form.number != ""
    {
      var ok := Validate();
      if ok {
        assert !Fails(form, EmailKey);
        EmailCheck(form);
        assert !Fails(form, PhoneKey) && !Fails(form, FullNameKey) && !Fails(form, SectorKey);
        assert !Fails(form, StreetNameKey) && !Fails(form, NumberKey);
        next := Some(Contact(form.fullName, form.phone, form.email, ComposeAddress(form)));
      } else {
        next := None;
      }
    }
  }
}
