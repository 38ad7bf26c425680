// Small text vocabulary shared by the other modules.
module Text {
  datatype Option<+T> = None | Some(value: T)

  lemma {:induction false} Associates<T>(a: seq<T>, b: seq<T>, c: seq<T>)
    ensures a + (b + c) == (a + b) + c
  {
  }

  predicate IsSpace(c: char) {
    c == ' ' || c == '\n' || c == '\t' || c == '\r'
  }

  // JavaScript's String.trim over the four ASCII white-space characters.
  function TrimLeft(s: string): string {
    if s != "" && IsSpace(s[0]) then TrimLeft(s[1..]) else s
  }

  function TrimRight(s: string): string {
    if s != "" && IsSpace(s[|s| - 1]) then TrimRight(s[..|s| - 1]) else s
  }

  function Trim(s: string): string {
    TrimRight(TrimLeft(s))
  }

  predicate Blank(s: string) {
    forall c :: c in s ==> IsSpace(c)
  }

  lemma {:induction false} TrimLeftBlank(s: string)
    ensures TrimLeft(s) == "" <==> Blank(s)
    ensures TrimLeft(s) != "" ==> !IsSpace(TrimLeft(s)[0])
  {
    if s != "" {
      assert s == [s[0]] + s[1..];
      if IsSpace(s[0]) { TrimLeftBlank(s[1..]); }
    }
  }

  lemma {:induction false} TrimRightKeepsFirst(s: string)
    requires s != "" && !IsSpace(s[0])
    ensures TrimRight(s) != ""
  {
    if IsSpace(s[|s| - 1]) { TrimRightKeepsFirst(s[..|s| - 1]); }
  }

  lemma {:induction false} TrimIsEmptyIffBlank(s: string)
    ensures Trim(s) == "" <==> Blank(s)
  {
    TrimLeftBlank(s);
    if TrimLeft(s) != "" { TrimRightKeepsFirst(TrimLeft(s)); }
  }

  lemma {:induction false} TrimLeftTakesSpace(s: string)
    ensures exists a :: s == a + TrimLeft(s) && Blank(a)
  {
    if s != "" && IsSpace(s[0]) {
      TrimLeftTakesSpace(s[1..]);
      var a :| s[1..] == a + TrimLeft(s[1..]) && Blank(a);
      assert s == ([s[0]] + a) + TrimLeft(s) && Blank([s[0]] + a);
    } else {
      assert s == "" + TrimLeft(s) && Blank("");
    }
  }

  lemma {:induction false} TrimRightTakesSpace(s: string)
    ensures exists b :: s == TrimRight(s) + b && Blank(b)
    ensures TrimRight(s) != "" ==> !IsSpace(TrimRight(s)[|TrimRight(s)| - 1])
  {
    if s != "" && IsSpace(s[|s| - 1]) {
      var n := |s| - 1;
      TrimRightTakesSpace(s[..n]);
      var b :| s[..n] == TrimRight(s[..n]) + b && Blank(b);
      assert s == TrimRight(s) + (b + [s[n]]) && Blank(b + [s[n]]);
    } else {
      assert s == TrimRight(s) + "" && Blank("");
    }
  }

  // Trimming takes white space off both ends and nothing else, and leaves none there.
  lemma {:induction false} TrimTakesOuterSpace(s: string)
    ensures exists a, b :: s == a + Trim(s) + b && Blank(a) && Blank(b)
    ensures Trim(s) != "" ==> !IsSpace(Trim(s)[0]) && !IsSpace(Trim(s)[|Trim(s)| - 1])
  {
    TrimLeftTakesSpace(s);
    TrimLeftBlank(s);
    TrimRightTakesSpace(TrimLeft(s));
    hide TrimLeft, TrimRight, Blank, IsSpace;
    var a :| s == a + TrimLeft(s) && Blank(a);
    var b :| TrimLeft(s) == Trim(s) + b && Blank(b);
    assert s == a + (Trim(s) + b) == a + Trim(s) + b;
    if Trim(s) != "" { assert Trim(s)[0] == (Trim(s) + b)[0]; }
  }

  // The first text that is present; absent values are modelled by the empty string.
  function Or(a: string, b: string): string {
    if a != "" then a else b
  }

  predicate StartsWith(s: string, prefix: string) {
    prefix <= s
  }

  // The decimal rendering of a number.
  function Decimal(n: nat): string {
    if n < 10 then [Digit(n)] else Decimal(n / 10) + [Digit(n % 10)]
  }

  function Digit(d: nat): char
    requires d < 10
  {
    "0123456789"[d]
  }
}
