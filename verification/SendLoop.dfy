/** The loop at the end of sendNodeMessage that writes the text of a message to the socket. What write returns is
    kept in a char, and every call passes the text from its beginning. */
module SendLoop {

  /** strlen of the text: a JSON object is never empty. */
  type TextSize = n: int | n > 0 witness 1

  /** The value of an int once it has been stored into a char. */
  function ToChar(v: int, signed: bool): int {
    if signed && v % 256 >= 128 then v % 256 - 256 else v % 256
  }

  /** What one call of write does: so many characters taken, or a failure and whether errno is EINTR then. */
  datatype Result = Took(n: nat) | Failed(eintr: bool)

  /** The loop between two calls: what is still to be written, whether errno is EINTR, the characters taken by each
      call so far, and whether the loop is over. */
  datatype Loop = Loop(size: int, eintr: bool, taken: seq<nat>, over: bool)

  function Start(n: TextSize, eintr: bool): Loop {
    Loop(n, eintr, [], false)
  }

  /** One call and the tests on its result. Success leaves errno as it was. */
  function Round(l: Loop, r: Result, signed: bool): Loop {
    if l.over then l
    else
      var ret := ToChar(if r.Took? then r.n else -1, signed);
      var l1 := if r.Took? then l.(taken := l.taken + [r.n]) else l.(eintr := r.eintr);
      if ret == l.size then l1.(over := true)
      else if ret < 0 then l1.(over := !l1.eintr)
      else l1.(size := l.size - ret, over := l.size - ret <= 0)
  }

  /** The loop after k calls, each of which takes all it is offered. */
  function AfterWhole(n: TextSize, eintr: bool, signed: bool, k: nat): Loop {
    if k == 0 then Start(n, eintr)
    else
      var l := AfterWhole(n, eintr, signed, k - 1);
      Round(l, Took(if l.size > 0 then l.size else 0), signed)
  }

  /** The sizes on which whole writes never end the loop: they do not fit into a char, and the char they leave is
      not negative, or it is and errno happens to be EINTR. */
  predicate Endless(n: TextSize, eintr: bool, signed: bool) {
    if signed then n >= 128 && (n % 256 < 128 || eintr) else n >= 256
  }

  lemma FirstCall(n: TextSize, eintr: bool, signed: bool)
    ensures var l := AfterWhole(n, eintr, signed, 1);
      && l.taken == [n] && (l.over <==> !Endless(n, eintr, signed))
      && (!l.over ==> l.eintr == eintr && l.size > 0 && l.size >= 128)
      && (!l.over ==> l.size % 256 == 0 || (signed && eintr && l.size % 256 >= 128))
  {
    assert AfterWhole(n, eintr, signed, 0) == Start(n, eintr);
    assert [] + [n as nat] == [n];
  }

  /** After the first call every other call leaves the loop where it is. */
  lemma {:induction false} LaterCalls(n: TextSize, eintr: bool, signed: bool, k: nat)
    requires k >= 1
    ensures var l, first := AfterWhole(n, eintr, signed, k), AfterWhole(n, eintr, signed, 1);
      && l.over == first.over && l.size == first.size && l.eintr == first.eintr
      && |l.taken| == (if first.over then 1 else k) && (first.over ==> l == first)
    decreases k
  {
    FirstCall(n, eintr, signed);
    if k > 1 {
      LaterCalls(n, eintr, signed, k - 1);
      hide AfterWhole, Endless;
      NextCall(n, eintr, signed, k);
    }
  }

  lemma NextCall(n: TextSize, eintr: bool, signed: bool, k: nat)
    requires k >= 1
    ensures var l := AfterWhole(n, eintr, signed, k - 1);
      AfterWhole(n, eintr, signed, k) == Round(l, Took(if l.size > 0 then l.size else 0), signed)
  {
  }

  /** With writes that take all they are offered the loop ends exactly on the sizes that are not endless, and then
      after a single call that took the whole text; otherwise it calls write for ever. */
  lemma LoopEndsIff(n: TextSize, eintr: bool, signed: bool)
    ensures (exists k: nat :: AfterWhole(n, eintr, signed, k).over) <==> !Endless(n, eintr, signed)
    ensures forall k: nat :: AfterWhole(n, eintr, signed, k).over ==> AfterWhole(n, eintr, signed, k).taken == [n]
    ensures Endless(n, eintr, signed) ==> forall k: nat :: |AfterWhole(n, eintr, signed, k).taken| == k
  {
    FirstCall(n, eintr, signed);
    forall k: nat
      ensures AfterWhole(n, eintr, signed, k).over ==>
        !Endless(n, eintr, signed) && AfterWhole(n, eintr, signed, k).taken == [n]
      ensures Endless(n, eintr, signed) ==> |AfterWhole(n, eintr, signed, k).taken| == k
    {
      if k >= 1 {
        LaterCalls(n, eintr, signed, k);
      }
    }
    assert !Endless(n, eintr, signed) ==> AfterWhole(n, eintr, signed, 1).over;
  }

  /** Watched for one call, the loop shows whether it will ever end. */
  lemma OneCallDecides(n: TextSize, eintr: bool, signed: bool, calls: nat)
    requires AfterWhole(n, eintr, signed, calls).over || calls == 1
    ensures AfterWhole(n, eintr, signed, calls).over <==> !Endless(n, eintr, signed)
    ensures AfterWhole(n, eintr, signed, calls).over ==> AfterWhole(n, eintr, signed, calls).taken == [n]
  {
    LoopEndsIff(n, eintr, signed);
    FirstCall(n, eintr, signed);
  }

  /** A text of 300 characters is written for ever, one of 200 once, although a char holds neither size. */
  lemma LoopExamples(k: nat)
    ensures !AfterWhole(300, false, true, k).over && !AfterWhole(300, false, false, k).over
    ensures AfterWhole(200, false, true, 1).over && !AfterWhole(200, true, true, k).over
  {
    LoopEndsIff(300, false, true);
    LoopEndsIff(300, false, false);
    LoopEndsIff(200, true, true);
    FirstCall(200, false, true);
  }

  /** The loop as it is written, watched for at most `patience` calls. */
  method WriteText(n: TextSize, eintr: bool, signed: bool, patience: nat) returns (l: Loop, calls: nat)
    ensures l == AfterWhole(n, eintr, signed, calls) && (l.over || calls == patience)
  {
    l, calls := Start(n, eintr), 0;
    while !l.over && calls < patience
      invariant calls <= patience && l == AfterWhole(n, eintr, signed, calls)
      decreases patience - calls
    {
      l := Round(l, Took(if l.size > 0 then l.size else 0), signed);
      calls := calls + 1;
    }
  }

  // ----- writes that do not take everything

  /** What the node receives: every call sends the text from its beginning. */
  function Received(text: string, taken: seq<nat>): string
    requires forall i :: 0 <= i < |taken| ==> taken[i] <= |text|
  {
    if taken == [] then "" else text[..taken[0]] + Received(text, taken[1..])
  }

  /** A short text that is taken in two pieces: the loop ends with every character accounted for, but the node has
      received the text exactly when it goes on, after the first piece, as it began. */
  lemma TwoPiecesAreTheTextIff(text: string, k: nat, eintr: bool, signed: bool)
    requires 0 < k < |text| <= 127
    ensures var l := Round(Round(Start(|text|, eintr), Took(k), signed), Took(|text| - k), signed);
      l.over && l.taken == [k, |text| - k]
    ensures Received(text, [k, |text| - k]) == text <==> text[k..] == text[..|text| - k]
  {
    TwoShortCalls(|text|, k, eintr, signed);
    ReceivedInTwo(text, k);
  }

  lemma TwoShortCalls(n: nat, k: nat, eintr: bool, signed: bool)
    requires 0 < k < n <= 127
    ensures Round(Round(Start(n, eintr), Took(k), signed), Took(n - k), signed) == Loop(n - k, eintr, [k, n - k], true)
  {
    hide Round;
    ShortCall(n, [], k, eintr, signed);
    ShortCall(n - k, [k], n - k, eintr, signed);
    var none: seq<nat> := [];
    assert none + [k] == [k] && [k] + [n - k] == [k, n - k];
  }

  /** A call on a size that fits into a char, which takes m of it. */
  lemma ShortCall(size: nat, taken: seq<nat>, m: nat, eintr: bool, signed: bool)
    requires 0 < m <= size <= 127
    ensures Round(Loop(size, eintr, taken, false), Took(m), signed) ==
      Loop(if m == size then size else size - m, eintr, taken + [m], m == size)
  {
  }

  lemma ReceivedInTwo(text: string, k: nat)
    requires 0 < k < |text|
    ensures Received(text, [k, |text| - k]) == text <==> text[k..] == text[..|text| - k]
  {
    hide *;
    var rest := text[..|text| - k];
    ReceivedPieces(text, k, |text| - k);
    assert |text[..k]| == k && text == text[..k] + text[k..];
    TailsDecide(text[..k], text[k..], rest);
  }

  lemma ReceivedPieces(text: string, a: nat, b: nat)
    requires a <= |text| && b <= |text|
    ensures Received(text, [a, b]) == text[..a] + text[..b]
  {
    assert [a, b][1..] == [b] && [b][1..] == [];
    assert Received(text, [b]) == text[..b];
  }

  lemma TailsDecide(a: string, b: string, c: string)
    ensures a + c == a + b <==> b == c
  {
    assert (a + b)[|a|..] == b && (a + c)[|a|..] == c;
  }
}
