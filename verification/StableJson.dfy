/**
 * The canonical JSON text that request fingerprints are computed from.
 *
 * Text is a sequence of UTF-16 code units. A number is represented by the characters that
 * JSON.stringify prints for it.
 */
module StableJson {

  type Unit = u: int | 0 <= u < 0x1_0000
  type Text = seq<Unit>

  datatype Json =
    | Null
    | Bool(value: bool)
    | Number(literal: Text)
    | Str(text: Text)
    | Arr(items: seq<Json>)
    | Obj(members: seq<Member>)

  datatype Member = Member(key: Text, value: Json)

  const QUOTE: Unit := 0x22
  const BACKSLASH: Unit := 0x5C
  const COMMA: Unit := 0x2C
  const COLON: Unit := 0x3A
  const OPEN_BRACKET: Unit := 0x5B
  const CLOSE_BRACKET: Unit := 0x5D
  const OPEN_BRACE: Unit := 0x7B
  const CLOSE_BRACE: Unit := 0x7D

  const NULL_TEXT: Text := [0x6E, 0x75, 0x6C, 0x6C]
  const TRUE_TEXT: Text := [0x74, 0x72, 0x75, 0x65]
  const FALSE_TEXT: Text := [0x66, 0x61, 0x6C, 0x73, 0x65]

  // ---------- Well-formed values ----------

  /** Digits, sign, point and exponent. */
  predicate IsNumberUnit(u: Unit) {
    0x30 <= u <= 0x39 || u == 0x2B || u == 0x2D || u == 0x2E || u == 0x45 || u == 0x65
  }

  predicate IsNumberLiteral(t: Text) {
    t != [] && (t[0] == 0x2D || 0x30 <= t[0] <= 0x39) && forall i :: 0 <= i < |t| ==> IsNumberUnit(t[i])
  }

  predicate DistinctKeys(members: seq<Member>) {
    forall i, j :: 0 <= i < j < |members| ==> members[i].key != members[j].key
  }

  /** Numbers are number literals and no object names a member twice, at every depth. */
  predicate WellFormed(v: Json) {
    match v
    case Null => true
    case Bool(_) => true
    case Number(literal) => IsNumberLiteral(literal)
    case Str(_) => true
    case Arr(items) => forall i :: 0 <= i < |items| ==> WellFormed(items[i])
    case Obj(members) => DistinctKeys(members) && forall i :: 0 <= i < |members| ==> WellFormed(members[i].value)
  }

  /** Equal up to the order of object members, at every depth. */
  ghost predicate Equivalent(v: Json, w: Json) {
    match v
    case Null => w == Null
    case Bool(_) => w == v
    case Number(_) => w == v
    case Str(_) => w == v
    case Arr(items) =>
      w.Arr? && |w.items| == |items| && forall i :: 0 <= i < |items| ==> Equivalent(items[i], w.items[i])
    case Obj(members) =>
      && w.Obj? && |w.members| == |members|
      && forall i :: 0 <= i < |members| ==>
           exists j :: 0 <= j < |w.members| && w.members[j].key == members[i].key
                       && Equivalent(members[i].value, w.members[j].value)
  }

  // ---------- Strings ----------

  function HexDigit(d: int): Unit
    requires 0 <= d < 16
  {
    if d < 10 then 0x30 + d else 0x61 + d - 10
  }

  function Escaped(u: Unit): Text {
    [BACKSLASH, 0x75, HexDigit(u / 16 / 16 / 16), HexDigit(u / 16 / 16 % 16), HexDigit(u / 16 % 16), HexDigit(u % 16)]
  }

  predicate IsHigh(u: Unit) { 0xD800 <= u <= 0xDBFF }

  predicate IsLow(u: Unit) { 0xDC00 <= u <= 0xDFFF }

  /** Whether unit i is half of a surrogate pair. */
  predicate Paired(s: Text, i: nat)
    requires i < |s|
  {
    || (IsHigh(s[i]) && i + 1 < |s| && IsLow(s[i + 1]))
    || (IsLow(s[i]) && 0 < i && IsHigh(s[i - 1]))
  }

  /** How JSON.stringify prints the unit at position i. */
  function QuotedUnit(s: Text, i: nat): Text
    requires i < |s|
  {
    var u := s[i];
    if u == QUOTE then [BACKSLASH, QUOTE]
    else if u == BACKSLASH then [BACKSLASH, BACKSLASH]
    else if u == 0x08 then [BACKSLASH, 0x62]
    else if u == 0x09 then [BACKSLASH, 0x74]
    else if u == 0x0A then [BACKSLASH, 0x6E]
    else if u == 0x0C then [BACKSLASH, 0x66]
    else if u == 0x0D then [BACKSLASH, 0x72]
    else if u < 0x20 || ((IsHigh(u) || IsLow(u)) && !Paired(s, i)) then Escaped(u)
    else [u]
  }

  function QuotedFrom(s: Text, i: nat): Text
    requires i <= |s|
    decreases |s| - i
  {
    if i == |s| then [QUOTE] else QuotedUnit(s, i) + QuotedFrom(s, i + 1)
  }

  function Quoted(s: Text): Text {
    [QUOTE] + QuotedFrom(s, 0)
  }

  // ---------- Order of keys ----------

  /** The order of Array.prototype.sort on strings: by code units. */
  predicate Below(s: Text, t: Text) {
    if s == [] then t != []
    else t != [] && (s[0] < t[0] || (s[0] == t[0] && Below(s[1..], t[1..])))
  }

  function InsertMember(m: Member, members: seq<Member>): (r: seq<Member>)
    ensures |r| == |members| + 1
    ensures forall x :: x in r <==> x == m || x in members
  {
    if members == [] || Below(m.key, members[0].key) then [m] + members
    else
      assert members == [members[0]] + members[1..];
      [members[0]] + InsertMember(m, members[1..])
  }

  function SortMembers(members: seq<Member>): (r: seq<Member>)
    ensures |r| == |members|
    ensures forall x :: x in r <==> x in members
  {
    if members == [] then []
    else
      assert members == [members[0]] + members[1..];
      InsertMember(members[0], SortMembers(members[1..]))
  }

  // ---------- Printing ----------

  function Stable(v: Json): (t: Text)
    decreases v, 2
  {
    match v
    case Null => NULL_TEXT
    case Bool(value) => if value then TRUE_TEXT else FALSE_TEXT
    case Number(literal) => literal
    case Str(text) => Quoted(text)
    case Arr(items) => [OPEN_BRACKET] + JoinItems(v, items) + [CLOSE_BRACKET]
    case Obj(members) => [OPEN_BRACE] + JoinMembers(v, SortMembers(members)) + [CLOSE_BRACE]
  }

  function JoinItems(parent: Json, items: seq<Json>): Text
    requires parent.Arr? && forall x :: x in items ==> x in parent.items
    decreases parent, 1, |items|
  {
    if items == [] then []
    else
      assert items[0] in items;
      if |items| == 1 then Stable(items[0])
      else Stable(items[0]) + [COMMA] + JoinItems(parent, items[1..])
  }

  function PrintMember(parent: Json, m: Member): Text
    requires parent.Obj? && m in parent.members
    decreases parent, 0
  {
    Quoted(m.key) + [COLON] + Stable(m.value)
  }

  function JoinMembers(parent: Json, members: seq<Member>): Text
    requires parent.Obj? && forall x :: x in members ==> x in parent.members
    decreases parent, 1, |members|
  {
    if members == [] then []
    else if |members| == 1 then PrintMember(parent, members[0])
    else PrintMember(parent, members[0]) + [COMMA] + JoinMembers(parent, members[1..])
  }

  // ---------- Keys sort one way only ----------

  lemma {:induction false} BelowIsStrict(s: Text, t: Text)
    ensures !(Below(s, t) && Below(t, s))
    ensures Below(s, t) || Below(t, s) || s == t
    ensures !Below(s, s)
  {
    if s != [] && t != [] {
      BelowIsStrict(s[1..], t[1..]);
      assert s == [s[0]] + s[1..] && t == [t[0]] + t[1..];
    }
    if s != [] {
      BelowIsStrict(s[1..], s[1..]);
    }
  }

  lemma {:induction false} BelowIsTransitive(s: Text, t: Text, u: Text)
    requires Below(s, t) && Below(t, u)
    ensures Below(s, u)
  {
    if s != [] && s[0] == t[0] == u[0] {
      BelowIsTransitive(s[1..], t[1..], u[1..]);
    }
  }

  ghost predicate Ascending(members: seq<Member>) {
    forall i, j :: 0 <= i < j < |members| ==> Below(members[i].key, members[j].key)
  }

  lemma {:induction false} InsertKeepsAscending(m: Member, members: seq<Member>)
    requires Ascending(members) && forall x :: x in members ==> x.key != m.key
    ensures Ascending(InsertMember(m, members))
  {
    var r := InsertMember(m, members);
    if members == [] {
    } else if Below(m.key, members[0].key) {
      forall j | 0 < j < |r|
        ensures Below(m.key, r[j].key)
      {
        if j > 1 {
          BelowIsTransitive(m.key, members[0].key, members[j - 1].key);
        }
      }
    } else {
      InsertKeepsAscending(m, members[1..]);
      assert members[0] in members;
      BelowIsStrict(m.key, members[0].key);
      FirstStaysFirst(m, members);
    }
  }

  lemma FirstStaysFirst(m: Member, members: seq<Member>)
    requires members != [] && Ascending(members) && Below(members[0].key, m.key)
    ensures forall x :: x in InsertMember(m, members[1..]) ==> Below(members[0].key, x.key)
  {
    forall x | x in InsertMember(m, members[1..])
      ensures Below(members[0].key, x.key)
    {
      if x != m {
        var k :| 0 <= k < |members[1..]| && members[1..][k] == x;
        assert members[k + 1] == x;
      }
    }
  }

  lemma {:induction false} SortedAscends(members: seq<Member>)
    requires DistinctKeys(members)
    ensures Ascending(SortMembers(members))
  {
    if members != [] {
      SortedAscends(members[1..]);
      InsertKeepsAscending(members[0], SortMembers(members[1..]));
    }
  }

  ghost function Keys(members: seq<Member>): set<Text> {
    if members == [] then {} else {members[0].key} + Keys(members[1..])
  }

  lemma {:induction false} KeyOf(members: seq<Member>, i: nat)
    requires i < |members|
    ensures members[i].key in Keys(members)
  {
    if i > 0 {
      KeyOf(members[1..], i - 1);
    }
  }

  lemma {:induction false} WithKey(members: seq<Member>, key: Text) returns (i: nat)
    requires key in Keys(members)
    ensures i < |members| && members[i].key == key
  {
    if members[0].key == key {
      i := 0;
    } else {
      i := WithKey(members[1..], key);
      i := i + 1;
    }
  }

  lemma {:induction false} DistinctKeysCount(members: seq<Member>)
    requires DistinctKeys(members)
    ensures |Keys(members)| == |members|
  {
    if members != [] {
      DistinctKeysCount(members[1..]);
      if members[0].key in Keys(members[1..]) {
        var i := WithKey(members[1..], members[0].key);
        assert false;
      }
    }
  }

  lemma LeastKey(a: seq<Member>, key: Text)
    requires Ascending(a) && key in Keys(a)
    ensures a != [] && (key == a[0].key || Below(a[0].key, key))
  {
    var i := WithKey(a, key);
  }

  lemma TailKeys(a: seq<Member>)
    requires Ascending(a) && a != []
    ensures Keys(a[1..]) == Keys(a) - {a[0].key}
  {
    if a[0].key in Keys(a[1..]) {
      var i := WithKey(a[1..], a[0].key);
      BelowIsStrict(a[0].key, a[i + 1].key);
    }
  }

  /** Two ascending member lists with the same keys list them in the same order. */
  lemma {:induction false} SameKeysSameOrder(a: seq<Member>, b: seq<Member>)
    requires Ascending(a) && Ascending(b) && Keys(a) == Keys(b)
    ensures |a| == |b| && forall i :: 0 <= i < |a| ==> a[i].key == b[i].key
  {
    if a != [] {
      KeyOf(a, 0);
      LeastKey(b, a[0].key);
      KeyOf(b, 0);
      LeastKey(a, b[0].key);
      BelowIsStrict(a[0].key, b[0].key);
      TailKeys(a);
      TailKeys(b);
      SameKeysSameOrder(a[1..], b[1..]);
    }
  }

  // ---------- Equivalent values print alike ----------

  lemma MemberWithKey(members: seq<Member>, m: Member, n: Member)
    requires DistinctKeys(members) && m in members && n in members && m.key == n.key
    ensures m == n
  {
  }

  lemma {:induction false} EquivalentPrintAlike(v: Json, w: Json)
    requires WellFormed(v) && WellFormed(w) && Equivalent(v, w)
    ensures Stable(v) == Stable(w)
    decreases v, 1
  {
    match v
    case Null =>
    case Bool(_) =>
    case Number(_) =>
    case Str(_) =>
    case Arr(items) => EquivalentItems(v, w, items, w.items);
    case Obj(members) =>
      var a, b := SortMembers(members), SortMembers(w.members);
      SortedAlike(v, w);
      forall i | 0 <= i < |a|
        ensures Stable(a[i].value) == Stable(b[i].value)
      {
        var k, j := Counterpart(v, w, a[i], b[i]);
        EquivalentPrintAlike(members[k].value, w.members[j].value);
      }
      JoinAlike(v, w, a, b);
  }

  lemma SortedAlike(v: Json, w: Json)
    requires v.Obj? && w.Obj? && WellFormed(v) && WellFormed(w) && Equivalent(v, w)
    ensures var a, b := SortMembers(v.members), SortMembers(w.members);
      |a| == |b| && forall i :: 0 <= i < |a| ==> a[i].key == b[i].key && a[i] in v.members && b[i] in w.members
  {
    var a, b := SortMembers(v.members), SortMembers(w.members);
    SortedAscends(v.members);
    SortedAscends(w.members);
    EquivalentKeys(v, w);
    SameKeysSameOrder(a, b);
    forall i | 0 <= i < |a|
      ensures a[i] in v.members && b[i] in w.members
    {
      assert a[i] in a && b[i] in b;
    }
  }

  lemma Counterpart(v: Json, w: Json, m: Member, n: Member) returns (k: nat, j: nat)
    requires v.Obj? && w.Obj? && WellFormed(v) && WellFormed(w) && Equivalent(v, w)
    requires m in v.members && n in w.members && m.key == n.key
    ensures k < |v.members| && v.members[k] == m && j < |w.members| && w.members[j] == n
    ensures Equivalent(v.members[k].value, w.members[j].value)
  {
    k :| 0 <= k < |v.members| && v.members[k] == m;
    j :| 0 <= j < |w.members| && w.members[j].key == v.members[k].key
         && Equivalent(v.members[k].value, w.members[j].value);
    MemberWithKey(w.members, w.members[j], n);
  }

  lemma {:induction false} EquivalentItems(v: Json, w: Json, items: seq<Json>, items': seq<Json>)
    requires v.Arr? && w.Arr? && |items| == |items'|
    requires forall x :: x in items ==> x in v.items && WellFormed(x)
    requires forall x :: x in items' ==> x in w.items && WellFormed(x)
    requires forall i :: 0 <= i < |items| ==> Equivalent(items[i], items'[i])
    ensures JoinItems(v, items) == JoinItems(w, items')
    decreases v, 0, |items|
  {
    if items != [] {
      assert items[0] in items && items'[0] in items';
      EquivalentPrintAlike(items[0], items'[0]);
      EquivalentItems(v, w, items[1..], items'[1..]);
    }
  }

  lemma EquivalentKeys(v: Json, w: Json)
    requires v.Obj? && w.Obj? && WellFormed(v) && WellFormed(w) && Equivalent(v, w)
    ensures Keys(SortMembers(v.members)) == Keys(SortMembers(w.members))
  {
    forall k | k in Keys(v.members)
      ensures k in Keys(w.members)
    {
      var i := WithKey(v.members, k);
      var j :| 0 <= j < |w.members| && w.members[j].key == v.members[i].key
               && Equivalent(v.members[i].value, w.members[j].value);
      KeyOf(w.members, j);
    }
    DistinctKeysCount(v.members);
    DistinctKeysCount(w.members);
    SameSize(Keys(v.members), Keys(w.members));
    SortKeepsKeys(v.members);
    SortKeepsKeys(w.members);
  }

  lemma SameSize(x: set<Text>, y: set<Text>)
    requires x <= y && |x| == |y|
    ensures x == y
  {
    assert |y - x| == |y| - |x|;
  }

  lemma {:induction false} InsertKeepsKeys(m: Member, members: seq<Member>)
    ensures Keys(InsertMember(m, members)) == Keys(members) + {m.key}
  {
    if members != [] && !Below(m.key, members[0].key) {
      InsertKeepsKeys(m, members[1..]);
    }
  }

  lemma {:induction false} SortKeepsKeys(members: seq<Member>)
    ensures Keys(SortMembers(members)) == Keys(members)
  {
    if members != [] {
      SortKeepsKeys(members[1..]);
      InsertKeepsKeys(members[0], SortMembers(members[1..]));
    }
  }

  lemma {:induction false} JoinAlike(v: Json, w: Json, a: seq<Member>, b: seq<Member>)
    requires v.Obj? && w.Obj? && |a| == |b|
    requires (forall x :: x in a ==> x in v.members) && forall x :: x in b ==> x in w.members
    requires forall i :: 0 <= i < |a| ==> a[i].key == b[i].key && Stable(a[i].value) == Stable(b[i].value)
    ensures JoinMembers(v, a) == JoinMembers(w, b)
    decreases |a|
  {
    if a != [] {
      JoinAlike(v, w, a[1..], b[1..]);
    }
  }

  // ---------- Values that print alike are equivalent ----------

  /** What can follow the text of a value inside a larger text. */
  predicate Delimited(x: Text) {
    x != [] ==> x[0] == COMMA || x[0] == CLOSE_BRACKET || x[0] == CLOSE_BRACE
  }

  lemma HexIsInjective(u: Unit, w: Unit)
    requires Escaped(u) == Escaped(w)
    ensures u == w
  {
    var p, q := Escaped(u), Escaped(w);
    assert p[2] == q[2] && p[3] == q[3] && p[4] == q[4] && p[5] == q[5];
    DigitIsInjective(u / 16 / 16 / 16, w / 16 / 16 / 16);
    DigitIsInjective(u / 16 / 16 % 16, w / 16 / 16 % 16);
    DigitIsInjective(u / 16 % 16, w / 16 % 16);
    DigitIsInjective(u % 16, w % 16);
  }

  lemma DigitIsInjective(d: int, e: int)
    requires 0 <= d < 16 && 0 <= e < 16 && HexDigit(d) == HexDigit(e)
    ensures d == e
  {
  }

  lemma Regroup(a: Text, b: Text, c: Text)
    ensures a + b + c == a + (b + c)
  {
  }

  /** Equal texts with equal first parts have equal rests. */
  lemma SameRest(a: Text, x: Text, b: Text, y: Text)
    requires a + x == b + y && |a| == |b|
    ensures a == b && x == y
  {
    assert a == (a + x)[..|a|] && b == (b + y)[..|b|];
    assert x == (a + x)[|a|..] && y == (b + y)[|b|..];
  }

  /** The text of one unit tells the unit and where the text ends. */
  lemma UnitDecodes(s: Text, i: nat, t: Text, j: nat, x: Text, y: Text)
    requires i < |s| && j < |t| && QuotedUnit(s, i) + x == QuotedUnit(t, j) + y
    ensures s[i] == t[j] && x == y
  {
    var p, q := QuotedUnit(s, i), QuotedUnit(t, j);
    assert (p + x)[0] == p[0] && (q + y)[0] == q[0];
    if p[0] == BACKSLASH {
      assert (p + x)[1] == p[1] && (q + y)[1] == q[1];
    }
    assert |p| == |q|;
    SameRest(p, x, q, y);
    if |p| == 6 {
      HexIsInjective(s[i], t[j]);
    }
  }

  lemma QuotedStep(s: Text, i: nat, x: Text)
    requires i <= |s|
    ensures i == |s| ==> QuotedFrom(s, i) + x == [QUOTE] + x
    ensures i < |s| ==> QuotedFrom(s, i) + x == QuotedUnit(s, i) + (QuotedFrom(s, i + 1) + x)
    ensures (QuotedFrom(s, i) + x)[0] == QUOTE <==> i == |s|
  {
    if i < |s| {
      Regroup(QuotedUnit(s, i), QuotedFrom(s, i + 1), x);
      assert QuotedUnit(s, i)[0] != QUOTE;
    }
  }

  lemma {:induction false} QuotedDecodes(s: Text, t: Text, i: nat, x: Text, y: Text)
    requires i <= |s| && i <= |t| && s[..i] == t[..i]
    requires QuotedFrom(s, i) + x == QuotedFrom(t, i) + y
    ensures s == t && x == y
    decreases |s| - i
  {
    QuotedStep(s, i, x);
    QuotedStep(t, i, y);
    if i < |s| {
      UnitDecodes(s, i, t, i, QuotedFrom(s, i + 1) + x, QuotedFrom(t, i + 1) + y);
      assert s[..i + 1] == s[..i] + [s[i]] && t[..i + 1] == t[..i] + [t[i]];
      QuotedDecodes(s, t, i + 1, x, y);
    } else {
      assert s == s[..i] && t == t[..i];
      SameRest([QUOTE], x, [QUOTE], y);
    }
  }

  lemma StringsDecode(s: Text, t: Text, x: Text, y: Text)
    requires Quoted(s) + x == Quoted(t) + y
    ensures s == t && x == y
  {
    Regroup([QUOTE], QuotedFrom(s, 0), x);
    Regroup([QUOTE], QuotedFrom(t, 0), y);
    SameRest([QUOTE], QuotedFrom(s, 0) + x, [QUOTE], QuotedFrom(t, 0) + y);
    QuotedDecodes(s, t, 0, x, y);
  }

  lemma NumberEnds(s: Text, t: Text, x: Text, y: Text)
    requires IsNumberLiteral(s) && IsNumberLiteral(t) && Delimited(x) && s + x == t + y
    ensures |t| <= |s|
  {
    assert |s| < |t| ==> (t + y)[|s|] == t[|s|] && IsNumberUnit(t[|s|]);
    assert x != [] ==> (s + x)[|s|] == x[0];
  }

  lemma NumbersDecode(s: Text, t: Text, x: Text, y: Text)
    requires IsNumberLiteral(s) && IsNumberLiteral(t) && Delimited(x) && Delimited(y) && s + x == t + y
    ensures s == t && x == y
  {
    NumberEnds(s, t, x, y);
    NumberEnds(t, s, y, x);
    SameRest(s, x, t, y);
  }

  /** The first character tells the kind of a value. */
  lemma FirstCharacter(v: Json)
    requires WellFormed(v)
    ensures Stable(v) != []
    ensures v.Null? <==> Stable(v)[0] == 0x6E
    ensures v == Bool(true) <==> Stable(v)[0] == 0x74
    ensures v == Bool(false) <==> Stable(v)[0] == 0x66
    ensures v.Str? <==> Stable(v)[0] == QUOTE
    ensures v.Arr? <==> Stable(v)[0] == OPEN_BRACKET
    ensures v.Obj? <==> Stable(v)[0] == OPEN_BRACE
    ensures v.Number? <==> Stable(v)[0] == 0x2D || 0x30 <= Stable(v)[0] <= 0x39
  {
  }

  /** Closes a list: not a comma. */
  predicate Closing(x: Text) {
    x != [] && (x[0] == CLOSE_BRACKET || x[0] == CLOSE_BRACE)
  }

  lemma ListText(open: Unit, body: Text, close: Unit, x: Text)
    ensures [open] + body + [close] + x == [open] + (body + ([close] + x))
  {
  }

  lemma SameKind(v: Json, w: Json, x: Text, y: Text)
    requires WellFormed(v) && WellFormed(w) && Stable(v) + x == Stable(w) + y
    ensures v.Null? <==> w.Null?
    ensures v.Bool? <==> w.Bool?
    ensures v.Bool? ==> w == v
    ensures v.Number? <==> w.Number?
    ensures v.Str? <==> w.Str?
    ensures v.Arr? <==> w.Arr?
    ensures v.Obj? <==> w.Obj?
  {
    FirstCharacter(v);
    FirstCharacter(w);
    assert (Stable(v) + x)[0] == Stable(v)[0] && (Stable(w) + y)[0] == Stable(w)[0];
  }

  /** A value's text, followed by a delimiter or nothing, tells the value up to equivalence and where it ends. */
  lemma {:induction false} PrintDecodes(v: Json, w: Json, x: Text, y: Text)
    requires WellFormed(v) && WellFormed(w) && Delimited(x) && Delimited(y)
    requires Stable(v) + x == Stable(w) + y
    ensures Equivalent(v, w) && x == y
    decreases v, 3
  {
    SameKind(v, w, x, y);
    if v.Arr? {
      ArraysDecode(v, w, x, y);
    } else if v.Obj? {
      ObjectsDecode(v, w, x, y);
    } else if v.Number? {
      NumbersDecode(v.literal, w.literal, x, y);
    } else if v.Str? {
      StringsDecode(v.text, w.text, x, y);
    } else {
      SameRest(Stable(v), x, Stable(w), y);
    }
  }

  lemma {:induction false} ArraysDecode(v: Json, w: Json, x: Text, y: Text)
    requires v.Arr? && w.Arr? && WellFormed(v) && WellFormed(w)
    requires Stable(v) + x == Stable(w) + y
    ensures Equivalent(v, w) && x == y
    decreases v, 2
  {
    var x', y' := [CLOSE_BRACKET] + x, [CLOSE_BRACKET] + y;
    ListText(OPEN_BRACKET, JoinItems(v, v.items), CLOSE_BRACKET, x);
    ListText(OPEN_BRACKET, JoinItems(w, w.items), CLOSE_BRACKET, y);
    SameRest([OPEN_BRACKET], JoinItems(v, v.items) + x', [OPEN_BRACKET], JoinItems(w, w.items) + y');
    ItemsDecode(v, w, v.items, w.items, x', y');
    SameRest([CLOSE_BRACKET], x, [CLOSE_BRACKET], y);
  }

  lemma {:induction false} ObjectsDecode(v: Json, w: Json, x: Text, y: Text)
    requires v.Obj? && w.Obj? && WellFormed(v) && WellFormed(w)
    requires Stable(v) + x == Stable(w) + y
    ensures Equivalent(v, w) && x == y
    decreases v, 2
  {
    var a, b := SortMembers(v.members), SortMembers(w.members);
    var x', y' := [CLOSE_BRACE] + x, [CLOSE_BRACE] + y;
    ListText(OPEN_BRACE, JoinMembers(v, a), CLOSE_BRACE, x);
    ListText(OPEN_BRACE, JoinMembers(w, b), CLOSE_BRACE, y);
    SameRest([OPEN_BRACE], JoinMembers(v, a) + x', [OPEN_BRACE], JoinMembers(w, b) + y');
    MembersDecode(v, w, a, b, x', y');
    SameRest([CLOSE_BRACE], x, [CLOSE_BRACE], y);
    SortedPairsMatch(v, w);
  }

  /** What follows the first element of a non-empty joined list. */
  lemma RestOfItems(parent: Json, items: seq<Json>, x: Text) returns (r: Text)
    requires parent.Arr? && items != [] && (forall i :: i in items ==> i in parent.items) && Closing(x)
    ensures r != [] && Delimited(r) && (r[0] == COMMA <==> |items| > 1)
    ensures |items| > 1 ==> r == [COMMA] + (JoinItems(parent, items[1..]) + x)
    ensures |items| == 1 ==> r == x
    ensures JoinItems(parent, items) + x == Stable(items[0]) + r
  {
    r := x;
    if |items| > 1 {
      var rest := JoinItems(parent, items[1..]);
      r := [COMMA] + (rest + x);
      Regroup(Stable(items[0]), [COMMA], rest);
      Regroup(Stable(items[0]), [COMMA] + rest, x);
      Regroup([COMMA], rest, x);
    }
  }

  lemma ListIsEmptyIffClosed(v: Json, items: seq<Json>, x: Text)
    requires v.Arr? && (forall i :: i in items ==> i in v.items && WellFormed(i)) && Closing(x)
    ensures items == [] <==> Closing(JoinItems(v, items) + x)
    ensures items == [] ==> JoinItems(v, items) + x == x
  {
    if items != [] {
      var r := RestOfItems(v, items, x);
      assert items[0] in items;
      FirstCharacter(items[0]);
      assert (Stable(items[0]) + r)[0] == Stable(items[0])[0];
    }
  }

  lemma {:induction false} ItemsDecode(v: Json, w: Json, items: seq<Json>, items': seq<Json>, x: Text, y: Text)
    requires v.Arr? && w.Arr? && Closing(x) && Closing(y)
    requires forall i :: i in items ==> i in v.items && WellFormed(i)
    requires forall i :: i in items' ==> i in w.items && WellFormed(i)
    requires JoinItems(v, items) + x == JoinItems(w, items') + y
    ensures |items| == |items'| && x == y
    ensures forall i :: 0 <= i < |items| ==> Equivalent(items[i], items'[i])
    decreases v, 1, |items|
  {
    ListIsEmptyIffClosed(v, items, x);
    ListIsEmptyIffClosed(w, items', y);
    if items != [] {
      var r := RestOfItems(v, items, x);
      var r' := RestOfItems(w, items', y);
      assert items[0] in items && items'[0] in items';
      PrintDecodes(items[0], items'[0], r, r');
      if |items| > 1 {
        var t, t' := items[1..], items'[1..];
        SameRest([COMMA], JoinItems(v, t) + x, [COMMA], JoinItems(w, t') + y);
        ItemsDecode(v, w, t, t', x, y);
        assert forall i :: 0 < i < |items| ==> items[i] == t[i - 1] && items'[i] == t'[i - 1];
      }
    }
  }

  lemma RestOfMembers(parent: Json, members: seq<Member>, x: Text) returns (r: Text)
    requires parent.Obj? && members != [] && (forall m :: m in members ==> m in parent.members) && Closing(x)
    ensures r != [] && Delimited(r) && (r[0] == COMMA <==> |members| > 1)
    ensures |members| > 1 ==> r == [COMMA] + (JoinMembers(parent, members[1..]) + x)
    ensures |members| == 1 ==> r == x
    ensures JoinMembers(parent, members) + x == PrintMember(parent, members[0]) + r
  {
    r := x;
    if |members| > 1 {
      var rest := JoinMembers(parent, members[1..]);
      r := [COMMA] + (rest + x);
      Regroup(PrintMember(parent, members[0]), [COMMA], rest);
      Regroup(PrintMember(parent, members[0]), [COMMA] + rest, x);
      Regroup([COMMA], rest, x);
    }
  }

  lemma ObjectIsEmptyIffClosed(v: Json, members: seq<Member>, x: Text)
    requires v.Obj? && (forall m :: m in members ==> m in v.members) && Closing(x)
    ensures members == [] <==> Closing(JoinMembers(v, members) + x)
    ensures members == [] ==> JoinMembers(v, members) + x == x
  {
    if members != [] {
      var r := RestOfMembers(v, members, x);
      assert (PrintMember(v, members[0]) + r)[0] == QUOTE;
    }
  }

  lemma {:induction false} MemberDecodes(v: Json, w: Json, m: Member, n: Member, r: Text, r': Text)
    requires v.Obj? && w.Obj? && m in v.members && n in w.members
    requires WellFormed(m.value) && WellFormed(n.value) && Delimited(r) && Delimited(r')
    requires PrintMember(v, m) + r == PrintMember(w, n) + r'
    ensures m.key == n.key && Equivalent(m.value, n.value) && r == r'
    decreases v, 0
  {
    var x, y := Stable(m.value) + r, Stable(n.value) + r';
    MemberText(v, m, r);
    MemberText(w, n, r');
    StringsDecode(m.key, n.key, [COLON] + x, [COLON] + y);
    SameRest([COLON], x, [COLON], y);
    PrintDecodes(m.value, n.value, r, r');
  }

  lemma MemberText(v: Json, m: Member, r: Text)
    requires v.Obj? && m in v.members
    ensures PrintMember(v, m) + r == Quoted(m.key) + ([COLON] + (Stable(m.value) + r))
  {
    Regroup(Quoted(m.key), [COLON], Stable(m.value));
    Regroup(Quoted(m.key), [COLON] + Stable(m.value), r);
    Regroup([COLON], Stable(m.value), r);
  }

  lemma {:induction false} MembersDecode(v: Json, w: Json, a: seq<Member>, b: seq<Member>, x: Text, y: Text)
    requires v.Obj? && w.Obj? && Closing(x) && Closing(y)
    requires forall m :: m in a ==> m in v.members && WellFormed(m.value)
    requires forall m :: m in b ==> m in w.members && WellFormed(m.value)
    requires JoinMembers(v, a) + x == JoinMembers(w, b) + y
    ensures |a| == |b| && x == y
    ensures forall i :: 0 <= i < |a| ==> a[i].key == b[i].key && Equivalent(a[i].value, b[i].value)
    decreases v, 1, |a|
  {
    ObjectIsEmptyIffClosed(v, a, x);
    ObjectIsEmptyIffClosed(w, b, y);
    if a != [] {
      assert a[0] in a && b[0] in b;
      var r := RestOfMembers(v, a, x);
      var r' := RestOfMembers(w, b, y);
      MemberDecodes(v, w, a[0], b[0], r, r');
      if |a| > 1 {
        var t, t' := a[1..], b[1..];
        SameRest([COMMA], JoinMembers(v, t) + x, [COMMA], JoinMembers(w, t') + y);
        MembersDecode(v, w, t, t', x, y);
        forall i | 0 < i < |a|
          ensures a[i].key == b[i].key && Equivalent(a[i].value, b[i].value)
        {
          assert a[i] == t[i - 1] && b[i] == t'[i - 1];
        }
      }
    }
  }

  lemma SortedPairsMatch(v: Json, w: Json)
    requires v.Obj? && w.Obj?
    requires var a, b := SortMembers(v.members), SortMembers(w.members);
      |a| == |b| && forall i :: 0 <= i < |a| ==> a[i].key == b[i].key && Equivalent(a[i].value, b[i].value)
    ensures Equivalent(v, w)
  {
    var a, b := SortMembers(v.members), SortMembers(w.members);
    forall i | 0 <= i < |v.members|
      ensures exists j :: 0 <= j < |w.members| && w.members[j].key == v.members[i].key
                && Equivalent(v.members[i].value, w.members[j].value)
    {
      assert v.members[i] in a;
      var j := PartnerOf(a, b, v.members[i], w.members);
      assert w.members[j].key == v.members[i].key;
    }
  }

  lemma PartnerOf(a: seq<Member>, b: seq<Member>, m: Member, members: seq<Member>) returns (j: nat)
    requires |a| == |b| && forall i :: 0 <= i < |a| ==> a[i].key == b[i].key && Equivalent(a[i].value, b[i].value)
    requires m in a && forall x :: x in b ==> x in members
    ensures j < |members| && members[j].key == m.key && Equivalent(m.value, members[j].value)
  {
    var k :| 0 <= k < |a| && a[k] == m;
    assert b[k] in members;
    j :| 0 <= j < |members| && members[j] == b[k];
  }

  /** Two JSON values have the same canonical text exactly when they are equal up to member order, at every depth. */
  lemma StableTextIsCanonical(v: Json, w: Json)
    requires WellFormed(v) && WellFormed(w)
    ensures Stable(v) == Stable(w) <==> Equivalent(v, w)
  {
    if Stable(v) == Stable(w) {
      PrintDecodes(v, w, [], []);
    }
    if Equivalent(v, w) {
      EquivalentPrintAlike(v, w);
    }
  }
}
