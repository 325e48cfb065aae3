/** A codec and a digest that satisfy the laws the journal asks for, so that those laws are consistent. */
module JournalCodec {
  import opened Common
  import opened Journal

  function Zig(n: int): nat {
    if n >= 0 then 2 * n else -2 * n - 1
  }

  function Chars(s: string): seq<nat> {
    seq(|s|, i requires 0 <= i < |s| => s[i] as int)
  }

  function BodyNumbers(b: Body): seq<nat> {
    match b.previousHash
    case None => [Zig(b.sequence), Zig(b.payload), 0]
    case Some(hash) => [Zig(b.sequence), Zig(b.payload), 1] + Chars(hash)
  }

  function Numbers(t: Transaction): seq<nat> {
    [|BodyNumbers(t.body)|] + BodyNumbers(t.body) + Chars(t.hash)
  }

  function Unary(n: nat): string {
    if n == 0 then "b" else "a" + Unary(n - 1)
  }

  function Word(numbers: seq<nat>): string {
    if numbers == [] then "" else Unary(numbers[0]) + Word(numbers[1..])
  }

  function Encode(t: Transaction): string {
    Word(Numbers(t)) + "}"
  }

  lemma {:induction false} UnarySplits(m: nat, n: nat, x: string, y: string)
    requires Unary(m) + x == Unary(n) + y
    ensures m == n && x == y
  {
    var s, t := Unary(m) + x, Unary(n) + y;
    assert s[0] == (if m == 0 then 'b' else 'a') && t[0] == (if n == 0 then 'b' else 'a');
    if m > 0 && n > 0 {
      assert s[1..] == Unary(m - 1) + x && t[1..] == Unary(n - 1) + y;
      UnarySplits(m - 1, n - 1, x, y);
    } else {
      assert s[1..] == x && t[1..] == y;
    }
  }

  lemma {:induction false} WordLonger(x: seq<nat>)
    ensures x != [] ==> |Word(x)| > 0
  {
    if x != [] { assert |Unary(x[0])| > 0; }
  }

  lemma {:induction false} WordInjective(x: seq<nat>, y: seq<nat>)
    requires Word(x) == Word(y)
    ensures x == y
  {
    if x == [] || y == [] {
      WordLonger(x);
      WordLonger(y);
      return;
    }
    UnarySplits(x[0], y[0], Word(x[1..]), Word(y[1..]));
    WordInjective(x[1..], y[1..]);
    assert x == [x[0]] + x[1..] && y == [y[0]] + y[1..];
  }

  lemma {:induction false} WordLetters(x: seq<nat>)
    ensures forall i :: 0 <= i < |Word(x)| ==> Word(x)[i] in {'a', 'b'}
  {
    if x != [] {
      UnaryLetters(x[0]);
      WordLetters(x[1..]);
    }
  }

  lemma {:induction false} UnaryLetters(n: nat)
    ensures forall i :: 0 <= i < |Unary(n)| ==> Unary(n)[i] in {'a', 'b'}
  {
    if n > 0 { UnaryLetters(n - 1); }
  }

  lemma {:induction false} CharsInjective(s: string, t: string)
    requires Chars(s) == Chars(t)
    ensures s == t
  {
    assert |s| == |Chars(s)| == |t|;
    forall i | 0 <= i < |s|
      ensures s[i] == t[i]
    {
      assert Chars(s)[i] == Chars(t)[i];
    }
  }

  lemma {:induction false} BodyInjective(a: Body, b: Body)
    requires BodyNumbers(a) == BodyNumbers(b)
    ensures a == b
  {
    var x, y := BodyNumbers(a), BodyNumbers(b);
    assert x[0] == y[0] && x[1] == y[1] && x[2] == y[2];
    if a.previousHash.Some? {
      assert Chars(a.previousHash.value) == x[3..] == y[3..] == Chars(b.previousHash.value);
      CharsInjective(a.previousHash.value, b.previousHash.value);
    }
  }

  lemma {:induction false} NumbersInjective(t: Transaction, u: Transaction)
    requires Numbers(t) == Numbers(u)
    ensures t == u
  {
    var x, y := BodyNumbers(t.body), BodyNumbers(u.body);
    assert |x| == Numbers(t)[0] == Numbers(u)[0] == |y|;
    assert x == Numbers(t)[1..][..|x|] && y == Numbers(u)[1..][..|y|];
    assert Chars(t.hash) == Numbers(t)[1 + |x|..] && Chars(u.hash) == Numbers(u)[1 + |y|..];
    BodyInjective(t.body, u.body);
    CharsInjective(t.hash, u.hash);
  }

  lemma {:induction false} EncodeInjective(t: Transaction, u: Transaction)
    requires Encode(t) == Encode(u)
    ensures t == u
  {
    assert Word(Numbers(t)) == Encode(t)[..|Encode(t)| - 1] == Word(Numbers(u));
    WordInjective(Numbers(t), Numbers(u));
    NumbersInjective(t, u);
  }

  /** The end mark of a record is its last character and stands nowhere else. */
  lemma {:induction false} EndMark(t: Transaction, i: nat)
    requires i < |Encode(t)|
    ensures Encode(t)[i] == '}' <==> i == |Encode(t)| - 1
    ensures Encode(t)[i] != '\n'
  {
    WordLetters(Numbers(t));
  }

  ghost predicate IsRecord(s: string) {
    exists t :: Encode(t) == s
  }

  ghost function Parse(s: string): Option<Transaction> {
    if IsRecord(s) then
      var t :| Encode(t) == s;
      Some(t)
    else None
  }

  lemma {:induction false} NoRecord(s: string, i: nat)
    requires s == "" || s[|s| - 1] != '}' || (i < |s| - 1 && s[i] == '}')
    ensures Parse(s) == None
  {
    if IsRecord(s) {
      var t :| Encode(t) == s;
      EndMark(t, |s| - 1);
      if i < |s| { EndMark(t, i); }
    }
  }

  /** The laws of the codec and of the digest hold together for some codec. */
  lemma {:induction false} LawsConsistent()
    ensures exists codec :: Lawful(codec) && CollisionFree(codec)
  {
    var codec := Codec(Encode, s => Parse(s), b => Word(BodyNumbers(b)));
    forall t
      ensures codec.parse(codec.encode(t)) == Some(t) && codec.encode(t) != "" && '\n' !in codec.encode(t)
    {
      var s := Encode(t);
      assert IsRecord(s);
      var u := Parse(s).value;
      EncodeInjective(t, u);
      forall i | 0 <= i < |s|
        ensures s[i] != '\n'
      {
        EndMark(t, i);
      }
    }
    forall t, k | 0 <= k < |codec.encode(t)|
      ensures codec.parse(codec.encode(t)[..k]) == None
    {
      if k > 0 { EndMark(t, k - 1); }
      NoRecord(Encode(t)[..k], 0);
    }
    forall t, u, k | 0 < k <= |codec.encode(u)|
      ensures codec.parse(codec.encode(t) + codec.encode(u)[..k]) == None
    {
      EndMark(t, |Encode(t)| - 1);
      NoRecord(Encode(t) + Encode(u)[..k], |Encode(t)| - 1);
    }
    forall x, y | codec.digest(x) == codec.digest(y)
      ensures x == y
    {
      WordInjective(BodyNumbers(x), BodyNumbers(y));
      BodyInjective(x, y);
    }
    assert Lawful(codec) && CollisionFree(codec);
  }
}
