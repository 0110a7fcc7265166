/** Small facts about sequences shared by the lexer and the emitters. */
module SeqUtil {

  /** Concatenation is associative; stated over plain variables so that the
      solver need not rediscover it element by element. */
  lemma AppendAssoc<T>(a: seq<T>, b: seq<T>, c: seq<T>)
    ensures a + (b + c) == (a + b) + c
  {
  }

  /** Moving the head of `s` onto the end of `acc` leaves `acc + s` as it was. */
  lemma AppendHead<T>(acc: seq<T>, s: seq<T>)
    requires s != []
    ensures (acc + [s[0]]) + s[1..] == acc + s
  {
    assert s == [s[0]] + s[1..];
    AppendAssoc(acc, [s[0]], s[1..]);
  }

  /** The head and tail of `a + b` when `a` is not empty. */
  lemma TailAppend<T>(a: seq<T>, b: seq<T>)
    requires a != []
    ensures (a + b)[0] == a[0] && (a + b)[1..] == a[1..] + b
  {
  }

  /** Python's `sep.join(parts)`. */
  function Join(parts: seq<string>, sep: string): string {
    if parts == [] then ""
    else if |parts| == 1 then parts[0]
    else parts[0] + sep + Join(parts[1..], sep)
  }
}
