/** String operations of the host language: split, join and trim. */
module Text {

  /** Pieces between separators; the empty string has one empty piece. */
  function Split(s: string, sep: char): (pieces: seq<string>)
    ensures pieces != []
    ensures forall p :: p in pieces ==> sep !in p
  {
    if s == [] then [""]
    else
      var rest := Split(s[1..], sep);
      if s[0] == sep then [""] + rest else [[s[0]] + rest[0]] + rest[1..]
  }

  function Join(pieces: seq<string>, sep: char): string {
    if pieces == [] then ""
    else if |pieces| == 1 then pieces[0]
    else pieces[0] + [sep] + Join(pieces[1..], sep)
  }

  lemma {:induction false} SplitOne(s: string, sep: char)
    requires sep !in s
    ensures Split(s, sep) == [s]
  {
    if s != [] {
      SplitOne(s[1..], sep);
      assert [s[0]] + s[1..] == s;
    }
  }

  lemma {:induction false} SplitAt(a: string, b: string, sep: char)
    requires sep !in a
    ensures Split(a + [sep] + b, sep) == [a] + Split(b, sep)
  {
    var s := a + [sep] + b;
    if a == [] {
      assert s[1..] == b;
    } else {
      assert s[1..] == a[1..] + [sep] + b;
      SplitAt(a[1..], b, sep);
      assert s[0] == a[0] && [a[0]] + a[1..] == a;
    }
  }

  /** Splitting undoes joining, for pieces that do not hold the separator. */
  lemma {:induction false} SplitJoin(pieces: seq<string>, sep: char)
    requires pieces != [] && forall p :: p in pieces ==> sep !in p
    ensures Split(Join(pieces, sep), sep) == pieces
  {
    if |pieces| == 1 {
      SplitOne(pieces[0], sep);
    } else {
      SplitJoin(pieces[1..], sep);
      SplitAt(pieces[0], Join(pieces[1..], sep), sep);
    }
  }

  /** The characters `trim` removes. */
  predicate IsSpace(c: char) {
    || c in "\t\n\r \U{000B}\U{000C}\U{00A0}\U{1680}\U{2028}\U{2029}\U{202F}\U{205F}\U{3000}\U{FEFF}"
    || '\U{2000}' <= c <= '\U{200A}'
  }

  function TrimStart(s: string): (t: string)
    ensures t == [] || !IsSpace(t[0])
    ensures forall c :: c in t ==> c in s
  {
    if s != [] && IsSpace(s[0]) then TrimStart(s[1..]) else s
  }

  function TrimEnd(s: string): (t: string)
    ensures t <= s && (t == [] || !IsSpace(t[|t| - 1]))
    ensures forall i :: |t| <= i < |s| ==> IsSpace(s[i])
  {
    if s != [] && IsSpace(s[|s| - 1]) then TrimEnd(s[..|s| - 1]) else s
  }

  predicate Trimmed(s: string) {
    s != [] ==> !IsSpace(s[0]) && !IsSpace(s[|s| - 1])
  }

  function Trim(s: string): (t: string)
    ensures Trimmed(t)
    ensures forall c :: c in t ==> c in s
    ensures Trimmed(s) ==> t == s
  {
    TrimEnd(TrimStart(s))
  }

  predicate Blank(s: string) { forall c :: c in s ==> IsSpace(c) }

  lemma {:induction false} StartIsSuffix(s: string) returns (front: string)
    ensures s == front + TrimStart(s) && Blank(front)
  {
    front := "";
    if s != [] && IsSpace(s[0]) {
      front := StartIsSuffix(s[1..]);
      front := [s[0]] + front;
    }
  }

  /** Trimming cuts blanks off the two ends and nothing else. */
  lemma TrimIsMiddle(s: string) returns (front: string, back: string)
    ensures s == front + Trim(s) + back && Blank(front) && Blank(back)
  {
    front := StartIsSuffix(s);
    var start := TrimStart(s);
    back := start[|Trim(s)|..];
  }
}
