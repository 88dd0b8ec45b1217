/** The rewriting of positional `?` placeholders to numbered `$n` ones at the driver boundary. */
module Placeholders {
  import opened Decimal

  // ---------------------------------------------------------------- the rewriting

  /** The rewriting of a text that follows `index` placeholders. */
  function Dollars(sql: string, index: nat): string {
    if sql == [] then ""
    else if sql[0] == '?' then "$" + ToDecimal(index + 1) + Dollars(sql[1..], index + 1)
    else [sql[0]] + Dollars(sql[1..], index)
  }

  method ToDollar(sql: string) returns (out: string)
    ensures out == Dollars(sql, 0)
  {
    var index := 0;
    out := "";
    assert sql[0..] == sql;
    for i := 0 to |sql|
      invariant index >= 0
      invariant out + Dollars(sql[i..], index) == Dollars(sql, 0)
    {
      ghost var before := out;
      assert sql[i..][1..] == sql[i + 1..];
      if sql[i] == '?' {
        hide ToDecimal;
        assert Dollars(sql[i..], index) == "$" + ToDecimal(index + 1) + Dollars(sql[i + 1..], index + 1);
        index := index + 1;
        out := out + "$" + ToDecimal(index);
        hide Dollars;
        assert out + Dollars(sql[i + 1..], index)
            == before + ("$" + ToDecimal(index) + Dollars(sql[i + 1..], index));
      } else {
        assert Dollars(sql[i..], index) == [sql[i]] + Dollars(sql[i + 1..], index);
        out := out + [sql[i]];
        hide Dollars;
        assert out + Dollars(sql[i + 1..], index) == before + ([sql[i]] + Dollars(sql[i + 1..], index));
      }
    }
    assert out + "" == out;
  }

  // ---------------------------------------------------------------- what a statement means

  /** A statement as a template: characters, and holes for the n-th parameter. */
  datatype Item = Lit(c: char) | Hole(n: nat)

  /** Bound by position: the k-th `?` stands for the k-th parameter. */
  function ByPosition(sql: string, index: nat): seq<Item> {
    if sql == [] then []
    else if sql[0] == '?' then [Hole(index + 1)] + ByPosition(sql[1..], index + 1)
    else [Lit(sql[0])] + ByPosition(sql[1..], index)
  }

  /** How many digits a text starts with. */
  function DigitRun(s: string): (n: nat)
    ensures n <= |s| && AllDigits(s[..n])
    ensures n < |s| ==> !IsDigit(s[n])
  {
    if s == [] || !IsDigit(s[0]) then 0
    else
      var n := DigitRun(s[1..]);
      assert s[..1 + n] == [s[0]] + s[1..][..n];
      1 + n
  }

  /** Bound by index: a dollar sign and the digits after it stand for the parameter they number. */
  function ByIndex(s: string): seq<Item> {
    if s == [] then []
    else
      var n := DigitRun(s[1..]);
      if s[0] == '$' && n > 0 then [Hole(FromDecimal(s[1..][..n]))] + ByIndex(s[1 + n..])
      else [Lit(s[0])] + ByIndex(s[1..])
  }

  /** Every `$n` turned back into `?`. */
  function Questions(s: string): string {
    if s == [] then ""
    else
      var n := DigitRun(s[1..]);
      if s[0] == '$' && n > 0 then "?" + Questions(s[1 + n..]) else [s[0]] + Questions(s[1..])
  }

  /** A `?` followed by a digit. */
  predicate NumberedAt(sql: string, i: int) {
    0 <= i < |sql| - 1 && sql[i] == '?' && IsDigit(sql[i + 1])
  }

  ghost predicate Plain(sql: string) {
    forall i :: !NumberedAt(sql, i)
  }

  lemma PlainTail(sql: string)
    requires sql != []
    ensures Plain(sql) <==> !NumberedAt(sql, 0) && Plain(sql[1..])
  {
    if !NumberedAt(sql, 0) && Plain(sql[1..]) {
      forall i ensures !NumberedAt(sql, i) {
        assert !NumberedAt(sql[1..], i - 1);
      }
    }
    if Plain(sql) {
      forall i ensures !NumberedAt(sql[1..], i) {
        assert !NumberedAt(sql, i + 1);
      }
    }
  }

  // ---------------------------------------------------------------- the proof

  lemma {:induction false} RunsJoin(a: string, b: string)
    requires AllDigits(a)
    ensures DigitRun(a + b) == |a| + DigitRun(b)
  {
    if a == [] {
      assert a + b == b;
    } else {
      assert (a + b)[1..] == a[1..] + b;
      RunsJoin(a[1..], b);
    }
  }

  /** The rewritten text starts with as many digits as the original. */
  lemma {:induction false} RunKept(sql: string, index: nat)
    ensures DigitRun(Dollars(sql, index)) == DigitRun(sql)
  {
    if sql != [] && IsDigit(sql[0]) {
      RunKept(sql[1..], index);
      assert Dollars(sql, index)[1..] == Dollars(sql[1..], index);
    }
  }

  function Numbered(index: nat, rest: string): string {
    "$" + ToDecimal(index) + rest
  }

  /** Where the digits of one numbered placeholder end, and what number they make. */
  lemma NumberAhead(index: nat, rest: string)
    requires index > 0
    ensures var s, m := Numbered(index, rest), DigitRun(rest);
            && DigitRun(s[1..]) == |ToDecimal(index)| + m
            && s[1 + DigitRun(s[1..])..] == rest[m..]
            && (FromDecimal(s[1..][..DigitRun(s[1..])]) == index <==> m == 0)
  {
    var number := ToDecimal(index);
    var s, m := Numbered(index, rest), DigitRun(rest);
    ReadBack(index);
    hide ToDecimal, FromDecimal, DigitRun;
    assert s[1..] == number + rest;
    RunsJoin(number, rest);
    assert s[1..][..|number| + m] == number + rest[..m];
    LongerIsLarger(number, rest[..m]);
    assert s[1 + |number| + m..] == rest[m..];
  }

  /** Reading one numbered placeholder and what follows it. */
  lemma HoleAhead(index: nat, rest: string)
    requires index > 0
    ensures var s, m := Numbered(index, rest), DigitRun(rest);
            && (m == 0 ==> ByIndex(s) == [Hole(index)] + ByIndex(rest))
            && (m > 0 ==> ByIndex(s) != [] && ByIndex(s)[0] != Hole(index))
  {
    NumberAhead(index, rest);
    var s := Numbered(index, rest);
    assert s[0] == '$';
    hide ToDecimal, FromDecimal, DigitRun, Numbered;
    assert rest[0..] == rest;
  }

  lemma QuestionsUnfold(s: string, n: nat, tail: string)
    requires s != [] && s[0] == '$' && DigitRun(s[1..]) == n > 0 && s[1 + n..] == tail
    ensures Questions(s) == "?" + Questions(tail)
  {
  }

  lemma QuestionAhead(index: nat, rest: string)
    requires index > 0
    ensures Questions(Numbered(index, rest)) == "?" + Questions(rest[DigitRun(rest)..])
  {
    NumberAhead(index, rest);
    assert Numbered(index, rest)[0] == '$';
    hide *;
    QuestionsUnfold(Numbered(index, rest), DigitRun(Numbered(index, rest)[1..]), rest[DigitRun(rest)..]);
  }

  /** Meaning is kept, exactly: for SQL without dollar signs, binding by index in the rewritten
      text is binding by position in the original if and only if no `?` is followed by a digit. */
  lemma {:induction false} MeaningKeptIff(sql: string, index: nat)
    requires '$' !in sql
    ensures ByIndex(Dollars(sql, index)) == ByPosition(sql, index) <==> Plain(sql)
  {
    if sql != [] {
      PlainTail(sql);
      if sql[0] == '?' {
        MeaningKeptIff(sql[1..], index + 1);
        RunKept(sql[1..], index + 1);
        HoleAhead(index + 1, Dollars(sql[1..], index + 1));
        assert Dollars(sql, index) == Numbered(index + 1, Dollars(sql[1..], index + 1));
        SameHead(Hole(index + 1), ByIndex(Dollars(sql[1..], index + 1)), ByPosition(sql[1..], index + 1));
        assert NumberedAt(sql, 0) <==> DigitRun(sql[1..]) > 0;
        assert ByPosition(sql, index)[0] == Hole(index + 1);
      } else {
        MeaningKeptIff(sql[1..], index);
        assert Dollars(sql, index)[1..] == Dollars(sql[1..], index);
        SameHead(Lit(sql[0]), ByIndex(Dollars(sql[1..], index)), ByPosition(sql[1..], index));
      }
    }
  }

  lemma SameHead(x: Item, a: seq<Item>, b: seq<Item>)
    ensures [x] + a == [x] + b <==> a == b
  {
    if [x] + a == [x] + b {
      assert a == ([x] + a)[1..] == b;
    }
  }

  /** The number of holes, and the numbers in them. */
  function Holes(items: seq<Item>): seq<nat> {
    if items == [] then []
    else if items[0].Hole? then [items[0].n] + Holes(items[1..])
    else Holes(items[1..])
  }

  function Marks(sql: string): nat {
    if sql == [] then 0 else (if sql[0] == '?' then 1 else 0) + Marks(sql[1..])
  }

  lemma {:induction false} PositionsCount(sql: string, index: nat)
    ensures Holes(ByPosition(sql, index)) == seq(Marks(sql), i requires 0 <= i => index + i + 1)
  {
    if sql != [] {
      var items := ByPosition(sql, index);
      if sql[0] == '?' {
        PositionsCount(sql[1..], index + 1);
        assert items[1..] == ByPosition(sql[1..], index + 1);
      } else {
        PositionsCount(sql[1..], index);
        assert items[1..] == ByPosition(sql[1..], index);
      }
    }
  }

  /** The indices are exactly 1, 2, up to the number of placeholders, in this order. */
  lemma IndicesAreOneToK(sql: string)
    requires '$' !in sql && Plain(sql)
    ensures Holes(ByIndex(Dollars(sql, 0))) == seq(Marks(sql), i requires 0 <= i => i + 1)
  {
    MeaningKeptIff(sql, 0);
    PositionsCount(sql, 0);
  }

  /** Turning the numbered placeholders back never lengthens the text. */
  lemma {:induction false} BackIsNoLonger(sql: string, index: nat, m: nat)
    requires '$' !in sql && m <= DigitRun(Dollars(sql, index))
    ensures |Questions(Dollars(sql, index)[m..])| <= |sql| - m
    decreases |sql|
  {
    var s := Dollars(sql, index);
    RunKept(sql, index);
    if sql != [] {
      if sql[0] == '?' {
        var rest := Dollars(sql[1..], index + 1);
        RunKept(sql[1..], index + 1);
        QuestionAhead(index + 1, rest);
        assert s == Numbered(index + 1, rest);
        BackIsNoLonger(sql[1..], index + 1, DigitRun(rest));
        assert s[0..] == s;
      } else if m == 0 {
        BackIsNoLonger(sql[1..], index, 0);
        assert s[1..] == Dollars(sql[1..], index) && s[0..] == s;
        assert Dollars(sql[1..], index)[0..] == Dollars(sql[1..], index);
      } else {
        BackIsNoLonger(sql[1..], index, m - 1);
        assert s[m..] == Dollars(sql[1..], index)[m - 1..];
      }
    }
  }

  /** The rewriting can be undone, exactly under the same condition. */
  lemma {:induction false} RestoredIff(sql: string, index: nat)
    requires '$' !in sql
    ensures Questions(Dollars(sql, index)) == sql <==> Plain(sql)
  {
    if sql != [] {
      PlainTail(sql);
      var s := Dollars(sql, index);
      if sql[0] == '?' {
        var rest := Dollars(sql[1..], index + 1);
        RestoredIff(sql[1..], index + 1);
        RunKept(sql[1..], index + 1);
        QuestionAhead(index + 1, rest);
        assert s == Numbered(index + 1, rest);
        BackIsNoLonger(sql[1..], index + 1, DigitRun(rest));
        assert rest[0..] == rest;
        assert Questions(s) == sql ==> Questions(rest[DigitRun(rest)..]) == sql[1..];
      } else {
        RestoredIff(sql[1..], index);
        assert s[1..] == Dollars(sql[1..], index);
        assert Questions(s) == sql ==> Questions(s[1..]) == sql[1..];
      }
    }
  }
}
