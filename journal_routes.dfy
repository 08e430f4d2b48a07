/**
 * The in-memory journal table of the journal routes: a module-level array
 * that the POST handler appends to and the DELETE handler splices, searched
 * by the numeric id parsed from the request path.  The clock is a parameter.
 */
module JournalRoutes {
  import opened Common

  datatype Journal = Journal(id: int, title: string, content: string, mood: Option<string>,
                             date: string, createdAt: string)

  // ---------------------------------------------------------------------------
  // `String.prototype.trim`

  function TrimStart(s: string): (r: string)
    ensures |r| <= |s| && r == s[|s| - |r|..]
    ensures r != [] ==> !IsSpace(r[0])
    ensures forall i :: 0 <= i < |s| - |r| ==> IsSpace(s[i])
  {
    if s != [] && IsSpace(s[0]) then TrimStart(s[1..]) else s
  }

  function TrimEnd(s: string): (r: string)
    ensures |r| <= |s| && r == s[..|r|]
    ensures r != [] ==> !IsSpace(r[|r| - 1])
    ensures forall i :: |r| <= i < |s| ==> IsSpace(s[i])
  {
    if s != [] && IsSpace(s[|s| - 1]) then TrimEnd(s[..|s| - 1]) else s
  }

  function Trim(s: string): string
  {
    TrimEnd(TrimStart(s))
  }

  predicate Blank(s: string)
  {
    forall i :: 0 <= i < |s| ==> IsSpace(s[i])
  }

  /** `s.trim().length === 0` holds exactly for strings of whitespace only. */
  lemma TrimEmptyIffBlank(s: string)
    ensures |Trim(s)| == 0 <==> Blank(s)
  {
  }

  // ---------------------------------------------------------------------------
  // `parseInt` with no radix argument

  /** The value of `c` as a digit in base `radix` (10 or 16), or -1. */
  function DigitValue(c: char, radix: int): int
  {
    if '0' <= c <= '9' then c as int - '0' as int
    else if radix == 16 && 'a' <= c <= 'f' then c as int - 'a' as int + 10
    else if radix == 16 && 'A' <= c <= 'F' then c as int - 'A' as int + 10
    else -1
  }

  /** The length of the longest prefix of `s` made of digits in base `radix`. */
  function DigitRun(s: string, radix: int): (k: nat)
    ensures k <= |s|
    ensures forall i :: 0 <= i < k ==> DigitValue(s[i], radix) >= 0
    ensures k < |s| ==> DigitValue(s[k], radix) < 0
  {
    if s != [] && DigitValue(s[0], radix) >= 0 then 1 + DigitRun(s[1..], radix) else 0
  }

  function DigitsValue(ds: string, radix: int): int
  {
    if ds == [] then 0 else DigitsValue(ds[..|ds| - 1], radix) * radix + DigitValue(ds[|ds| - 1], radix)
  }

  /** `parseInt(s)`: leading whitespace skipped, an optional sign, a `0x` or
      `0X` prefix selecting base 16, then the longest run of digits; `None`
      stands for NaN, the result when there is no digit. */
  function ParseInt(s: string): Option<int>
  {
    var t := TrimStart(s);
    var negative := |t| > 0 && t[0] == '-';
    var u := if |t| > 0 && (t[0] == '-' || t[0] == '+') then t[1..] else t;
    var hex := |u| >= 2 && u[0] == '0' && (u[1] == 'x' || u[1] == 'X');
    var radix := if hex then 16 else 10;
    var v := if hex then u[2..] else u;
    var k := DigitRun(v, radix);
    if k == 0 then None
    else Some(if negative then -DigitsValue(v[..k], radix) else DigitsValue(v[..k], radix))
  }

  lemma {:induction false} DigitsOfNatToString(n: nat)
    ensures DigitsValue(NatToString(n), 10) == n
  {
    var s := NatToString(n);
    if n >= 10 {
      DigitsOfNatToString(n / 10);
      assert s[..|s| - 1] == NatToString(n / 10);
    }
  }

  /** Parsing the decimal rendering of a natural number gives it back. */
  lemma ParseIntOfNatToString(n: nat)
    ensures ParseInt(NatToString(n)) == Some(n)
  {
    var s := NatToString(n);
    assert !IsSpace(s[0]) && s[0] != '-' && s[0] != '+';
    assert TrimStart(s) == s;
    var k := DigitRun(s, 10);
    assert s[..k] == s;
    DigitsOfNatToString(n);
  }

  /** Text without any decimal digit is NaN: no digit can follow the blanks
      and the sign, and without a `0` there is no `0x` prefix either. */
  lemma ParseIntNaN(s: string)
    requires forall i :: 0 <= i < |s| ==> !IsDigit(s[i])
    ensures ParseInt(s) == None
  {
    var t := TrimStart(s);
    assert forall i :: 0 <= i < |t| ==> t[i] == s[|s| - |t| + i];
    var u := if |t| > 0 && (t[0] == '-' || t[0] == '+') then t[1..] else t;
    assert forall i :: 0 <= i < |u| ==> !IsDigit(u[i]);
    if |u| > 0 {
      assert DigitValue(u[0], 10) < 0;
    }
  }

  /** Text after the run of digits is ignored. */
  lemma ParseIntStopsAtNonDigit()
    ensures ParseInt(" 12abc") == Some(12)
  {
    TrimStartExample();
    DigitsExample();
  }

  lemma TrimStartExample()
    ensures TrimStart(" 12abc") == "12abc"
  {
    assert !IsSpace('1') && IsSpace(' ');
    assert TrimStart("12abc") == "12abc";
    assert " 12abc"[1..] == "12abc";
  }

  lemma DigitsExample()
    ensures DigitRun("12abc", 10) == 2 && "12abc"[..2] == "12" && DigitsValue("12", 10) == 12
  {
    assert "12abc"[1..] == "2abc" && "2abc"[1..] == "abc";
    assert "12"[..1] == "1" && "1"[..0] == "";
  }

  /** A leading `0x` selects base 16. */
  lemma ParseIntHex()
    ensures ParseInt("0x1A") == Some(26)
  {
    HexDigitsExample();
    HexPrefixExample();
  }

  lemma HexPrefixExample()
    ensures TrimStart("0x1A") == "0x1A" && "0x1A"[2..] == "1A"
    ensures "0x1A"[0] == '0' && "0x1A"[1] == 'x'
  {
  }

  lemma HexDigitsExample()
    ensures DigitRun("1A", 16) == 2 && "1A"[..2] == "1A" && DigitsValue("1A", 16) == 26
  {
    assert "1A"[1..] == "A" && "A"[1..] == "";
    assert "1A"[..1] == "1" && "1"[..0] == "";
  }

  /** A leading minus sign negates. */
  lemma ParseIntNegative()
    ensures ParseInt("-7") == Some(-7)
  {
    SevenExample();
    assert "-7"[1..] == "7";
  }

  lemma SevenExample()
    ensures DigitRun("7", 10) == 1 && "7"[..1] == "7" && DigitsValue("7", 10) == 7
  {
    assert "7"[1..] == "" && "7"[..0] == "";
  }

  // ---------------------------------------------------------------------------
  // Searching the table

  /** `journals.findIndex(j => j.id === id)`, with `None` for -1. */
  function FirstWithId(js: seq<Journal>, id: int): (r: Option<nat>)
    ensures r.Some? ==> r.value < |js| && js[r.value].id == id &&
                        forall j :: 0 <= j < r.value ==> js[j].id != id
    ensures r.None? ==> forall j :: 0 <= j < |js| ==> js[j].id != id
  {
    if js == [] then None
    else if js[0].id == id then Some(0)
    else match FirstWithId(js[1..], id)
      case None => None
      case Some(i) => Some(i + 1)
  }

  /** The search with the parsed path parameter: NaN matches no entry. */
  function Lookup(js: seq<Journal>, parsed: Option<int>): Option<nat>
  {
    if parsed.None? then None else FirstWithId(js, parsed.value)
  }

  /** The table after `splice(index, 1)` at the found entry, or unchanged. */
  function Removed(js: seq<Journal>, parsed: Option<int>): seq<Journal>
  {
    match Lookup(js, parsed)
    case Some(i) => js[..i] + js[i + 1..]
    case None => js
  }

  /** The entry a successful POST appends, numbered after the current length. */
  function NewJournal(count: nat, title: Option<string>, content: string, mood: Option<string>,
                      date: Option<string>, now: string): Journal
  {
    var id := count + 1;
    Journal(id,
            if title.None? || title.value == "" then "Journal Entry " + NatToString(id) else title.value,
            content, mood,
            if date.None? then now else date.value,
            now)
  }

  /** Content that is missing, or whitespace only after trimming. */
  predicate Rejected(content: Option<string>)
  {
    content.None? || content.value == "" || |Trim(content.value)| == 0
  }

  predicate SequentialIds(js: seq<Journal>)
  {
    forall i :: 0 <= i < |js| ==> js[i].id == i + 1
  }

  // ---------------------------------------------------------------------------
  // The table

  class JournalStore {
    var journals: seq<Journal>

    constructor()
      ensures journals == []
    {
      journals := [];
    }

    /** POST: reject blank content with no change; otherwise append one entry
        whose id is the old length plus one. */
    method Create(title: Option<string>, content: Option<string>, mood: Option<string>,
                  date: Option<string>, now: string)
      returns (r: Result<Journal>)
      modifies this
      ensures Rejected(content) ==> r == Err("Content is required") && journals == old(journals)
      ensures !Rejected(content) ==>
                r == Ok(NewJournal(|old(journals)|, title, content.value, mood, date, now)) &&
                journals == old(journals) + [r.value]
      ensures SequentialIds(old(journals)) ==> SequentialIds(journals)
    {
      if content.None? || content.value == "" || |Trim(content.value)| == 0 {
        return Err("Content is required");
      }
      var id := |journals| + 1;
      var journal := Journal(id,
                             if title.None? || title.value == "" then "Journal Entry " + NatToString(id) else title.value,
                             content.value, mood,
                             if date.None? then now else date.value,
                             now);
      journals := journals + [journal];
      r := Ok(journal);
    }

    /** GET by id: the first entry whose id equals the parsed parameter. */
    method Get(idParam: string) returns (r: Result<Journal>)
      ensures match Lookup(journals, ParseInt(idParam))
              case Some(i) => r == Ok(journals[i])
              case None => r == Err("Journal not found")
    {
      var i := FindIndex(ParseInt(idParam));
      if i < 0 {
        return Err("Journal not found");
      }
      r := Ok(journals[i]);
    }

    /** DELETE by id: splice out the first entry whose id equals the parsed
        parameter, keeping the order of the others. */
    method Delete(idParam: string) returns (r: Result<string>)
      modifies this
      ensures r.Ok? <==> Lookup(old(journals), ParseInt(idParam)).Some?
      ensures r.Ok? ==> r.value == "Journal deleted"
      ensures r.Err? ==> r.error == "Journal not found"
      ensures journals == Removed(old(journals), ParseInt(idParam))
    {
      var index := FindIndex(ParseInt(idParam));
      if index == -1 {
        return Err("Journal not found");
      }
      journals := journals[..index] + journals[index + 1..];
      r := Ok("Journal deleted");
    }

    /** The scan shared by `find` and `findIndex`: -1 when nothing matches. */
    method FindIndex(parsed: Option<int>) returns (index: int)
      ensures match Lookup(journals, parsed)
              case Some(i) => index == i
              case None => index == -1
    {
      var i := 0;
      while i < |journals| && parsed != Some(journals[i].id)
        invariant 0 <= i <= |journals|
        invariant forall j :: 0 <= j < i ==> parsed != Some(journals[j].id)
      {
        i := i + 1;
      }
      if i == |journals| {
        index := -1;
      } else {
        index := i;
        assert parsed.Some? && journals[i].id == parsed.value;
      }
    }
  }

  // ---------------------------------------------------------------------------
  // Properties of the table operations

  /** Appending the entry a POST builds keeps ids equal to positions. */
  lemma CreateKeepsSequentialIds(js: seq<Journal>, title: Option<string>, content: string,
                                 mood: Option<string>, date: Option<string>, now: string)
    requires SequentialIds(js)
    ensures SequentialIds(js + [NewJournal(|js|, title, content, mood, date, now)])
    ensures NewJournal(|js|, title, content, mood, date, now).title ==
              if title.None? || title.value == "" then "Journal Entry " + NatToString(|js| + 1) else title.value
  {
  }

  /** With ids 1..n in order, id k is found at position k - 1 exactly when it
      is in range. */
  lemma SequentialLookup(js: seq<Journal>, id: int)
    requires SequentialIds(js)
    ensures FirstWithId(js, id).Some? <==> 1 <= id <= |js|
    ensures 1 <= id <= |js| ==> FirstWithId(js, id) == Some(id - 1)
  {
    if 1 <= id <= |js| {
      assert js[id - 1].id == id;
    }
  }

  /** Deleting removes exactly one entry, the first with the id, and keeps
      the others in order. */
  lemma RemovedSpec(js: seq<Journal>, parsed: Option<int>)
    ensures var r := Removed(js, parsed);
            match Lookup(js, parsed)
            case Some(i) =>
              |r| == |js| - 1 && multiset(r) + multiset{js[i]} == multiset(js) &&
              (forall j :: 0 <= j < i ==> r[j] == js[j]) &&
              (forall j :: i <= j < |r| ==> r[j] == js[j + 1])
            case None => r == js
  {
    match Lookup(js, parsed)
    case Some(i) =>
      assert js == js[..i] + [js[i]] + js[i + 1..];
    case None =>
  }

  /** After a deletion the length-based numbering reissues an id that is
      still present: with entries 1 and 2, deleting 1 and creating again
      yields two entries with id 2, and a GET for 2 finds the older one. */
  lemma IdReissuedAfterDelete(a: Journal, b: Journal, content: string, now: string)
    requires a.id == 1 && b.id == 2
    ensures var after := Removed([a, b], Some(1));
            var created := NewJournal(|after|, None, content, None, None, now);
            var js := after + [created];
            after == [b] && created.id == 2 && js[0].id == 2 && js[1].id == 2 &&
            FirstWithId(js, 2) == Some(0) && js[0] == b
  {
    assert FirstWithId([a, b], 1) == Some(0);
    assert [a, b][..0] + [a, b][1..] == [b];
  }
}
