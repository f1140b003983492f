/**
 * COM plumbing shared by the host objects: result codes, the parts of a
 * VARIANT the handlers read or write, `GetIDsOfNames` name tables and the
 * comma-separated JSON text the handlers stream out.
 */
module Com {
  import opened Bytes
  import opened JsText

  /** The HRESULT values the host objects return. */
  datatype HResult =
    | S_OK
    | E_FAIL
    | E_INVALIDARG
    | E_POINTER
    | E_OUTOFMEMORY
    | DISP_E_UNKNOWNNAME
    | DISP_E_MEMBERNOTFOUND

  /** The 32-bit code the Windows SDK defines for each value. */
  function Code(h: HResult): (c: nat)
    ensures c < 0x1_0000_0000
    ensures c >= 0x8000_0000 <==> h != S_OK
  {
    match h
    case S_OK => 0
    case E_FAIL => 0x8000_4005
    case E_INVALIDARG => 0x8007_0057
    case E_POINTER => 0x8000_4003
    case E_OUTOFMEMORY => 0x8007_000E
    case DISP_E_UNKNOWNNAME => 0x8002_0006
    case DISP_E_MEMBERNOTFOUND => 0x8002_0003
  }

  /** `SUCCEEDED(hr)`: the sign bit of the 32-bit code is clear. */
  predicate Succeeded(h: HResult) {
    Code(h) < 0x8000_0000
  }

  /** The success test agrees with the SDK's codes: only `S_OK` succeeds. */
  lemma SucceededOnlyOk(h: HResult)
    ensures Succeeded(h) <==> h == S_OK
  {
  }

  /**
   * The members of an argument VARIANT that the handlers read. The handlers
   * never look at `vt`, so each read is modelled as seeing its own member:
   * `intVal`, `uintVal`, `boolVal`, `dblVal`, `bstrVal`, and the doubles an
   * array argument points at.
   */
  datatype Arg = Arg(intVal: int, uintVal: nat, boolVal: bool, dblVal: real, bstrVal: string, doubles: seq<real>)

  /**
   * `DISPPARAMS*`: `None` for a null pointer, otherwise `rgvarg` in COM's
   * order, which is reversed (`rgvarg[0]` is the last argument).
   */
  type Params = Option<seq<Arg>>

  /** `pDispParams && pDispParams->cArgs == n` */
  predicate HasArgs(p: Params, n: nat) {
    p.Some? && |p.value| == n
  }

  /** What a handler stores through `pVarResult` or into a `SAFEARRAY` slot; `VEmpty` is `VT_EMPTY`. */
  datatype Value =
    | VEmpty
    | VBool(b: bool)
    | VBstr(s: string)
    | VUI4(u: nat)
    | VBytes(bytes: seq<u8>)
    | VArray(items: seq<Value>)

  // ----- name tables -----

  /** One row of a `GetIDsOfNames` table. */
  datatype Entry = Entry(name: string, id: int)

  /** Index of the first row named `name`. */
  function FirstMatch(table: seq<Entry>, name: string): (r: Option<nat>)
    ensures r.Some? ==> r.value < |table| && table[r.value].name == name
    ensures r.Some? ==> forall j :: 0 <= j < r.value ==> table[j].name != name
    ensures r.None? <==> forall j :: 0 <= j < |table| ==> table[j].name != name
  {
    if table == [] then None
    else if table[0].name == name then Some(0)
    else match FirstMatch(table[1..], name)
      case None => None
      case Some(k) => Some(k + 1)
  }

  /** The id a table gives a name, if any. */
  function Lookup(table: seq<Entry>, name: string): (r: Option<int>)
    ensures r.Some? <==> exists k :: 0 <= k < |table| && table[k].name == name
    ensures r.Some? ==> exists k :: 0 <= k < |table| && table[k] == Entry(name, r.value)
  {
    match FirstMatch(table, name)
    case None => None
    case Some(k) => Some(table[k].id)
  }

  /** When the names of a table are distinct, every row's name finds that row's id. */
  lemma LookupDistinct(table: seq<Entry>, k: nat)
    requires k < |table|
    requires forall i, j :: 0 <= i < j < |table| ==> table[i].name != table[j].name
    ensures Lookup(table, table[k].name) == Some(table[k].id)
  {
    var m := FirstMatch(table, table[k].name);
    assert m.Some?;
  }

  /**
   * The `for` loop over the table in every `GetIDsOfNames`: the id of the
   * first row whose name equals `name`, compared with `wcscmp`.
   */
  method FindId(table: seq<Entry>, name: string) returns (r: Option<int>)
    ensures r == Lookup(table, name)
    ensures r.Some? ==>
              exists k :: 0 <= k < |table| && table[k] == Entry(name, r.value) && forall j :: 0 <= j < k ==> table[j].name != name
    ensures r.None? ==> forall k :: 0 <= k < |table| ==> table[k].name != name
  {
    var i := 0;
    while i < |table|
      invariant 0 <= i <= |table|
      invariant forall j :: 0 <= j < i ==> table[j].name != name
    {
      if table[i].name == name {
        assert FirstMatch(table, name) == Some(i);
        return Some(table[i].id);
      }
      i := i + 1;
    }
    return None;
  }

  // ----- text -----

  /** Index of the first occurrence of `c` in `s` (`std::wstring::find`). */
  function IndexOf(s: string, c: char): (r: Option<nat>)
    ensures r.Some? ==> r.value < |s| && s[r.value] == c && c !in s[..r.value]
    ensures r.None? <==> c !in s
  {
    if s == [] then None
    else if s[0] == c then Some(0)
    else match IndexOf(s[1..], c)
      case None => None
      case Some(k) =>
        assert s[..k + 1] == [s[0]] + s[1..][..k];
        Some(k + 1)
  }

  /** `s` cut at its first comma into the text before and the text after it. */
  function SplitAtComma(s: string): (r: Option<(string, string)>)
    ensures r.None? <==> ',' !in s
    ensures r.Some? ==> s == r.value.0 + [','] + r.value.1 && ',' !in r.value.0
  {
    match IndexOf(s, ',')
    case None => None
    case Some(k) =>
      assert s == s[..k] + [','] + s[k + 1..];
      Some((s[..k], s[k + 1..]))
  }

  /** Cutting `a,b` at its first comma gives back `a` and `b` when `a` has no comma. */
  lemma SplitAtCommaInverse(a: string, b: string)
    requires ',' !in a
    ensures SplitAtComma(a + [','] + b) == Some((a, b))
  {
    var s := a + [','] + b;
    assert s[|a|] == ',';
    var r := SplitAtComma(s);
    assert r.Some?;
    var a', b' := r.value.0, r.value.1;
    assert |a'| == |a|;
    assert a' == s[..|a|] == a;
    assert b' == s[|a| + 1..] == b;
  }

  /** The items separated by commas, as the builders' `if (i > 0) json << ","` loops emit them. */
  function Join(items: seq<string>): string {
    if |items| == 0 then []
    else if |items| == 1 then items[0]
    else Join(items[..|items| - 1]) + [','] + items[|items| - 1]
  }

  /** Every comma-separated piece of `s`. */
  function Split(s: string): seq<string>
    decreases |s|
  {
    match SplitAtComma(s)
    case None => [s]
    case Some((head, tail)) => [head] + Split(tail)
  }

  /** Splitting `a,b` splits `a` and `b` separately. */
  lemma {:induction false} SplitConcat(a: string, b: string)
    ensures Split(a + [','] + b) == Split(a) + Split(b)
    decreases |a|
  {
    var s := a + [','] + b;
    match SplitAtComma(a)
    case None =>
      SplitAtCommaInverse(a, b);
    case Some((head, tail)) =>
      assert s == head + [','] + (tail + [','] + b);
      SplitAtCommaInverse(head, tail + [','] + b);
      SplitConcat(tail, b);
  }

  /** A comma-free item is one piece. */
  lemma SplitSingle(s: string)
    requires ',' !in s
    ensures Split(s) == [s]
  {
    assert SplitAtComma(s).None?;
  }

  /** A comma-joined list of comma-free items splits back into the same items. */
  lemma {:induction false} SplitJoin(items: seq<string>)
    requires |items| > 0
    requires forall i :: 0 <= i < |items| ==> ',' !in items[i]
    ensures Split(Join(items)) == items
  {
    if |items| == 1 {
      SplitSingle(items[0]);
    } else {
      var init, last := items[..|items| - 1], items[|items| - 1];
      assert forall i :: 0 <= i < |init| ==> init[i] == items[i];
      SplitJoin(init);
      SplitJoinStep(init, last);
      assert init + [last] == items;
    }
  }

  /** One more comma-free item keeps the round trip. */
  lemma SplitJoinStep(init: seq<string>, last: string)
    requires |init| > 0 && Split(Join(init)) == init && ',' !in last
    ensures Split(Join(init + [last])) == init + [last]
  {
    var items := init + [last];
    assert items[..|items| - 1] == init;
    assert Join(items) == Join(init) + [','] + last;
    SplitConcat(Join(init), last);
    SplitSingle(last);
  }

  /**
   * `json << "["`, the items with a comma before every one but the first,
   * then `json << "]"`.
   */
  method JsonArray(items: seq<string>) returns (json: string)
    ensures json == "[" + Join(items) + "]"
  {
    json := "[";
    var i := 0;
    while i < |items|
      invariant 0 <= i <= |items|
      invariant json == "[" + Join(items[..i])
    {
      if i > 0 {
        json := json + ",";
      }
      json := json + items[i];
      assert items[..i + 1][..i] == items[..i];
      i := i + 1;
    }
    assert items[..i] == items;
    json := json + "]";
  }

  /** The decimal digits `std::ostream` writes for an unsigned integer. */
  function NatText(n: nat): (r: string)
    ensures |r| > 0 && AllDigits(r)
    ensures DigitsValue(r) == n
  {
    if n < 10 then [('0' as int + n) as char]
    else
      var r := NatText(n / 10) + [('0' as int + n % 10) as char];
      assert r[..|r| - 1] == NatText(n / 10);
      r
  }

  /** `(b ? "true" : "false")` */
  function BoolText(b: bool): (r: string)
    ensures r == "true" <==> b
    ensures !b <==> r == "false"
  {
    if b then "true" else "false"
  }

  // ----- JSON objects -----

  /** `"text"` */
  function Quoted(text: string): string {
    "\"" + text + "\""
  }

  /** One `"key":value` member of a JSON object. */
  function Member(field: (string, string)): string {
    Quoted(field.0) + ":" + field.1
  }

  /** The members in order. */
  function Members(fields: seq<(string, string)>): (r: seq<string>)
    ensures |r| == |fields|
    ensures forall i :: 0 <= i < |fields| ==> r[i] == Member(fields[i])
  {
    if fields == [] then [] else [Member(fields[0])] + Members(fields[1..])
  }

  /** A flat JSON object with the given members, in the given order. */
  function ObjectText(fields: seq<(string, string)>): string {
    "{" + Join(Members(fields)) + "}"
  }

  /** A key and a value a flat object can carry and give back: no comma anywhere, no quote in the key. */
  predicate PlainField(field: (string, string)) {
    ',' !in field.0 && '"' !in field.0 && ',' !in field.1
  }

  /** Reads one `"key":value` member back. */
  function ParseMember(m: string): Option<(string, string)> {
    if |m| == 0 || m[0] != '"' then None
    else match IndexOf(m[1..], '"')
      case None => None
      case Some(k) =>
        var rest := m[1..][k + 1..];
        if |rest| == 0 || rest[0] != ':' then None else Some((m[1..][..k], rest[1..]))
  }

  lemma ParseMemberInverse(field: (string, string))
    requires '"' !in field.0
    ensures ParseMember(Member(field)) == Some(field)
  {
    var m := Member(field);
    var key := field.0;
    assert m[1..] == key + ("\":" + field.1);
    var k := IndexOf(m[1..], '"');
    assert m[1..][|key|] == '"';
    assert k.Some?;
    assert k.value == |key|;
    assert m[1..][..|key|] == key;
    assert m[1..][|key| + 1..] == ":" + field.1;
  }

  /** Reads every member back, failing if any one is malformed. */
  function ParseMembers(pieces: seq<string>): Option<seq<(string, string)>> {
    if pieces == [] then Some([])
    else match ParseMember(pieces[0])
      case None => None
      case Some(f) =>
        match ParseMembers(pieces[1..])
        case None => None
        case Some(fs) => Some([f] + fs)
  }

  lemma {:induction false} ParseMembersInverse(fields: seq<(string, string)>)
    requires forall i :: 0 <= i < |fields| ==> '"' !in fields[i].0
    ensures ParseMembers(Members(fields)) == Some(fields)
  {
    if fields != [] {
      ParseMemberInverse(fields[0]);
      ParseMembersInverse(fields[1..]);
      assert Members(fields)[1..] == Members(fields[1..]);
      assert [fields[0]] + fields[1..] == fields;
    }
  }

  /** Reads a flat JSON object text back into its members. */
  function ParseObject(s: string): Option<seq<(string, string)>> {
    if |s| < 2 || s[0] != '{' || s[|s| - 1] != '}' then None
    else ParseMembers(Split(s[1..|s| - 1]))
  }

  /** A member does not bring in a comma that neither its key nor its value has. */
  lemma MemberCommaFree(field: (string, string))
    requires PlainField(field)
    ensures ',' !in Member(field)
  {
    assert Member(field) == "\"" + field.0 + "\":" + field.1;
  }

  /** Every non-empty flat object of plain fields reads back as exactly its members, in order. */
  lemma ObjectRoundTrip(fields: seq<(string, string)>)
    requires |fields| > 0
    requires forall i :: 0 <= i < |fields| ==> PlainField(fields[i])
    ensures ParseObject(ObjectText(fields)) == Some(fields)
  {
    var ms := Members(fields);
    forall i | 0 <= i < |ms|
      ensures ',' !in ms[i]
    {
      MemberCommaFree(fields[i]);
    }
    SplitJoin(ms);
    var s := ObjectText(fields);
    assert s[1..|s| - 1] == Join(ms);
    ParseMembersInverse(fields);
  }
}
