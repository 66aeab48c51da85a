/**
 * Request headers as net/http's `Header.Get` sees them: a map from header name, as the
 * server stored it (net/http stores canonical names), to its first value. `Get`
 * canonicalises the name it is asked for, as `textproto.CanonicalMIMEHeaderKey` does,
 * and a missing header reads as the empty string.
 */
module Headers {
  type Header = map<string, string>

  /** A token character of RFC 7230, section 3.2.6: the characters a header name may hold. */
  predicate IsTokenChar(c: char)
  {
    ('a' <= c <= 'z') || ('A' <= c <= 'Z') || ('0' <= c <= '9')
    || c in {'!', '#', '$', '%', '&', '\'', '*', '+', '-', '.', '^', '_', '`', '|', '~'}
  }

  function Upper(c: char): char
  {
    if 'a' <= c <= 'z' then (c as int - 32) as char else c
  }

  function Lower(c: char): char
  {
    if 'A' <= c <= 'Z' then (c as int + 32) as char else c
  }

  /**
   * `CanonicalMIMEHeaderKey`: a name made of token characters gets an upper-case first
   * letter and an upper-case letter after every '-', and lower case elsewhere; any other
   * name is returned as it is.
   */
  function Canonical(key: string): (c: string)
    ensures |c| == |key|
    ensures (exists i :: 0 <= i < |key| && !IsTokenChar(key[i])) ==> c == key
  {
    if forall i :: 0 <= i < |key| ==> IsTokenChar(key[i]) then
      seq(|key|, i requires 0 <= i < |key| => if i == 0 || key[i - 1] == '-' then Upper(key[i]) else Lower(key[i]))
    else key
  }

  /** `Header.Get`: the first value stored under the canonical form of `key`, or "". */
  function Get(h: Header, key: string): (v: string)
    ensures Canonical(key) !in h ==> v == ""
    ensures Canonical(key) in h ==> v == h[Canonical(key)]
  {
    if Canonical(key) in h then h[Canonical(key)] else ""
  }

  /** Two names equal up to the case of their letters. */
  predicate SameUpToCase(a: string, b: string)
  {
    |a| == |b| && forall i :: 0 <= i < |a| ==> Lower(a[i]) == Lower(b[i])
  }

  /** Changing a letter's case keeps it a token character and keeps its upper and lower forms. */
  lemma CaseFolds(a: char, b: char)
    requires Lower(a) == Lower(b)
    ensures IsTokenChar(a) <==> IsTokenChar(b)
    ensures Upper(a) == Upper(b)
  {
  }

  /**
   * Header names are case-insensitive: names made of token characters that are equal up
   * to case read the same header. (A name holding another character is looked up as it is.)
   */
  lemma GetIgnoresCase(h: Header, a: string, b: string)
    requires SameUpToCase(a, b)
    requires forall i :: 0 <= i < |a| ==> IsTokenChar(a[i])
    ensures Get(h, a) == Get(h, b)
  {
    forall i | 0 <= i < |a|
      ensures IsTokenChar(b[i])
      ensures Upper(a[i]) == Upper(b[i])
    {
      CaseFolds(a[i], b[i]);
    }
    assert Canonical(a) == Canonical(b);
  }

  /** A lower-case word, such as "authorization", is canonical once its first letter is upper case. */
  lemma LowerWordCanonical(w: string)
    requires |w| > 0 && forall i :: 0 <= i < |w| ==> 'a' <= w[i] <= 'z'
    ensures Canonical(w) == [Upper(w[0])] + w[1..]
  {
    assert forall i :: 0 <= i < |w| ==> IsTokenChar(w[i]);
    var c := Canonical(w);
    forall i | 1 <= i < |w|
      ensures c[i] == w[i]
    {
      assert w[i - 1] != '-';
    }
    assert c == [Upper(w[0])] + w[1..];
  }

  /** A canonical name is its own canonical form. */
  lemma CanonicalIdempotent(key: string)
    ensures Canonical(Canonical(key)) == Canonical(key)
  {
    var c := Canonical(key);
    if forall i :: 0 <= i < |key| ==> IsTokenChar(key[i]) {
      forall i | 0 <= i < |key|
        ensures IsTokenChar(c[i]) && Lower(c[i]) == Lower(key[i]) && Upper(c[i]) == Upper(key[i])
      {
      }
      assert Canonical(c) == c;
    }
  }
}
