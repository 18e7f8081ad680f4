/** The parts of Ruby's and ActiveSupport's String and nil semantics that the
    rate pipeline relies on: `nil`, `to_s`, `blank?`, `presence`,
    `strip.empty?`, `upcase`, `Array#join`. */
module RubyText {

  /** A Ruby value that may be `nil`. */
  datatype Option<+T> = None | Some(value: T)

  /** `to_s` of a String or of nil (`nil.to_s == ""`). */
  function ToS(s: Option<string>): (r: string)
    ensures s.Some? ==> r == s.value
    ensures s.None? ==> r == ""
  {
    match s
    case Some(v) => v
    case None => ""
  }

  /** The characters `[[:space:]]` matches in a UTF-8 Ruby regexp: the
      Unicode White_Space property. */
  predicate IsSpace(c: char) {
    || c == ' '
    || '\t' <= c <= '\r'
    || c == '\U{85}' || c == '\U{A0}' || c == '\U{1680}'
    || '\U{2000}' <= c <= '\U{200A}'
    || c == '\U{2028}' || c == '\U{2029}' || c == '\U{202F}'
    || c == '\U{205F}' || c == '\U{3000}'
  }

  /** ActiveSupport's `blank?`: nil, or a String made only of whitespace. */
  predicate Blank(s: Option<string>) {
    match s
    case None => true
    case Some(v) => forall i :: 0 <= i < |v| ==> IsSpace(v[i])
  }

  /** ActiveSupport's `presence`: the receiver when it is not blank, else nil. */
  function Presence(s: Option<string>): (r: Option<string>)
    ensures r.Some? <==> !Blank(s)
    ensures r.Some? ==> r == s
  {
    if Blank(s) then None else s
  }

  /** The characters `String#strip` removes: NUL, horizontal tab, line feed,
      vertical tab, form feed, carriage return and space. */
  predicate IsStripSpace(c: char) {
    c == '\0' || '\t' <= c <= '\r' || c == ' '
  }

  /** `s.strip.empty?`: stripping leaves nothing exactly when every character
      is one that strip removes. */
  predicate StripsToEmpty(s: string) {
    forall i :: 0 <= i < |s| ==> IsStripSpace(s[i])
  }

  /** `String#upcase` on ASCII letters. */
  function UpcaseChar(c: char): (u: char)
    ensures 'a' <= c <= 'z' ==> u as int == c as int - 32
    ensures !('a' <= c <= 'z') ==> u == c
  {
    if 'a' <= c <= 'z' then (c as int - 32) as char else c
  }

  function Upcase(s: string): (r: string)
    ensures |r| == |s|
    ensures forall i :: 0 <= i < |s| ==> r[i] == UpcaseChar(s[i])
  {
    seq(|s|, i requires 0 <= i < |s| => UpcaseChar(s[i]))
  }

  /** Two characters that are the same letter up to ASCII case, or the same
      character otherwise. */
  predicate SameLetter(a: char, b: char) {
    a == b
    || ('a' <= a <= 'z' && b as int == a as int - 32)
    || ('a' <= b <= 'z' && a as int == b as int - 32)
  }

  /** Case-insensitive equality, stated character by character without
      reference to `Upcase`. */
  predicate EqualIgnoringCase(a: string, b: string) {
    |a| == |b| && forall i :: 0 <= i < |a| ==> SameLetter(a[i], b[i])
  }

  /** Comparing upcased strings is exactly case-insensitive comparison. */
  lemma UpcaseEqualIff(a: string, b: string)
    ensures Upcase(a) == Upcase(b) <==> EqualIgnoringCase(a, b)
  {
    if Upcase(a) == Upcase(b) {
      forall i | 0 <= i < |a| ensures SameLetter(a[i], b[i]) {
        assert UpcaseChar(a[i]) == Upcase(a)[i] == Upcase(b)[i] == UpcaseChar(b[i]);
      }
    }
    if EqualIgnoringCase(a, b) {
      forall i | 0 <= i < |a| ensures Upcase(a)[i] == Upcase(b)[i] {
        assert SameLetter(a[i], b[i]);
      }
    }
  }

  /** `Array#join(sep)` over strings. */
  function Join(parts: seq<string>, sep: char): (r: string)
    decreases |parts|
  {
    if |parts| == 0 then ""
    else if |parts| == 1 then parts[0]
    else parts[0] + [sep] + Join(parts[1..], sep)
  }

  /** Splits at every occurrence of `sep`, keeping empty pieces, so that it
      undoes `Join` (Ruby's `split` would drop trailing empty pieces). */
  function Split(s: string, sep: char): (r: seq<string>)
    ensures |r| >= 1
    decreases |s|
  {
    if |s| == 0 then [""]
    else
      var rest := Split(s[1..], sep);
      if s[0] == sep then [""] + rest else [[s[0]] + rest[0]] + rest[1..]
  }

  /** A piece free of the separator is glued to the first piece of what follows. */
  lemma {:induction false} SplitPiece(p: string, t: string, sep: char)
    requires sep !in p
    ensures Split(p + t, sep) == [p + Split(t, sep)[0]] + Split(t, sep)[1..]
    decreases |p|
  {
    if |p| > 0 {
      assert (p + t)[1..] == p[1..] + t;
      assert (p + t)[0] == p[0];
      SplitPiece(p[1..], t, sep);
      assert [p[0]] + (p[1..] + Split(t, sep)[0]) == p + Split(t, sep)[0];
    } else {
      var r := Split(t, sep);
      assert p + t == t;
      assert p + r[0] == r[0];
      assert r == [r[0]] + r[1..];
    }
  }

  /** `Split` undoes `Join` when no part contains the separator; so `Join`
      is injective over such parts. */
  lemma {:induction false} SplitJoin(parts: seq<string>, sep: char)
    requires |parts| >= 1
    requires forall i :: 0 <= i < |parts| ==> sep !in parts[i]
    ensures Split(Join(parts, sep), sep) == parts
    decreases |parts|
  {
    if |parts| == 1 {
      SplitPiece(parts[0], "", sep);
      assert parts[0] + "" == parts[0];
    } else {
      var tail := Join(parts[1..], sep);
      SplitJoin(parts[1..], sep);
      assert Join(parts, sep) == parts[0] + ([sep] + tail);
      SplitPiece(parts[0], [sep] + tail, sep);
      assert ([sep] + tail)[1..] == tail;
      assert Split([sep] + tail, sep) == [""] + parts[1..];
      assert parts[0] + "" == parts[0];
    }
  }

  /** Equal joins of separator-free lists of equal length come from equal lists. */
  lemma JoinInjective(a: seq<string>, b: seq<string>, sep: char)
    requires |a| >= 1 && |b| >= 1
    requires forall i :: 0 <= i < |a| ==> sep !in a[i]
    requires forall i :: 0 <= i < |b| ==> sep !in b[i]
    requires Join(a, sep) == Join(b, sep)
    ensures a == b
  {
    SplitJoin(a, sep);
    SplitJoin(b, sep);
  }

  /** Joining two non-empty lists one after the other puts one separator
      between the two joins. */
  lemma {:induction false} JoinAppend(a: seq<string>, b: seq<string>, sep: char)
    requires |a| >= 1 && |b| >= 1
    ensures Join(a + b, sep) == Join(a, sep) + [sep] + Join(b, sep)
    decreases |a|
  {
    if |a| > 1 {
      assert (a + b)[1..] == a[1..] + b;
      JoinAppend(a[1..], b, sep);
    } else {
      assert (a + b)[1..] == b;
    }
  }

  /** A join of three or more parts starts with the first two parts, each
      followed by the separator. */
  lemma JoinStartsWithTwo(parts: seq<string>, sep: char)
    requires |parts| >= 3
    ensures parts[0] + [sep] + parts[1] + [sep] <= Join(parts, sep)
  {
    assert parts[1..][1..] == parts[2..];
    assert Join(parts[1..], sep) == parts[1] + [sep] + Join(parts[2..], sep);
  }
}
