/**
 String literals, of the Go Programming Language Specification, section "String literals".
 */
module Literals {
  import opened Options

  /** What a raw string literal takes off the text behind its opening quote. */
  function TakeRaw(s: string): (r: Option<(string, string)>)
    ensures r.Some? ==> r.value.0 + r.value.1 == s && r.value.0 != ""
  {
    if s == "" then None
    else if s[0] == '`' then Some((s[..1], s[1..]))
    else
      var (a, b) :- TakeRaw(s[1..]);
      Some(([s[0]] + a, b))
  }

  /** The same for an interpreted one: a backslash takes the next character with it. */
  function TakeQuoted(s: string): (r: Option<(string, string)>)
    ensures r.Some? ==> r.value.0 + r.value.1 == s && r.value.0 != ""
    decreases |s|
  {
    if s == "" || s[0] == '\n' then None
    else if s[0] == '"' then Some((s[..1], s[1..]))
    else if s[0] != '\\' then
      var (a, b) :- TakeQuoted(s[1..]);
      Some(([s[0]] + a, b))
    else if |s| < 2 || s[1] == '\n' then None
    else
      var (a, b) :- TakeQuoted(s[2..]);
      Some((s[..2] + a, b))
  }

  /** A string literal off the front of a text. */
  function TakeLiteral(s: string): (r: Option<(string, string)>)
    ensures r.Some? ==> r.value.0 + r.value.1 == s && r.value.0 != ""
  {
    if s == "" || s[0] !in {'`', '"'} then None
    else
      var (a, b) :- if s[0] == '`' then TakeRaw(s[1..]) else TakeQuoted(s[1..]);
      Some(([s[0]] + a, b))
  }

  lemma {:induction false} TakeRawThen(s: string, k: string)
    requires TakeRaw(s).Some?
    ensures TakeRaw(s + k) == Some((TakeRaw(s).value.0, TakeRaw(s).value.1 + k))
  {
    assert (s + k)[1..] == s[1..] + k && (s + k)[..1] == s[..1];
    if s[0] != '`' {
      TakeRawThen(s[1..], k);
    }
  }

  lemma {:induction false} TakeQuotedThen(s: string, k: string)
    requires TakeQuoted(s).Some?
    ensures TakeQuoted(s + k) == Some((TakeQuoted(s).value.0, TakeQuoted(s).value.1 + k))
    decreases |s|
  {
    assert (s + k)[1..] == s[1..] + k && (s + k)[..1] == s[..1];
    if s[0] == '\\' {
      assert (s + k)[2..] == s[2..] + k && (s + k)[..2] == s[..2];
      TakeQuotedThen(s[2..], k);
    } else if s[0] != '"' {
      TakeQuotedThen(s[1..], k);
    }
  }

  lemma TakeLiteralThen(tag: string, k: string)
    requires TakeLiteral(tag) == Some((tag, ""))
    ensures TakeLiteral(tag + k) == Some((tag, k))
  {
    assert (tag + k)[1..] == tag[1..] + k;
    if tag[0] == '`' {
      TakeRawThen(tag[1..], k);
    } else {
      TakeQuotedThen(tag[1..], k);
    }
    assert "" + k == k;
  }
}
