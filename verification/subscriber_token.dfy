/** Subscription tokens: `validate_token` and `SubscriberToken::parse`
    (src/routes/subscriptions_confirm.rs) and `generate_subscription_token`
    (src/routes/subscriptions.rs). */
module SubscriberTokens {
  import opened Wrappers

  const TOKEN_LENGTH: nat := 25

  predicate IsAscii(c: char) { c as int < 0x80 }

  /** `str::is_ascii`. */
  predicate AllAscii(s: string) {
    forall i :: 0 <= i < |s| ==> IsAscii(s[i])
  }

  /** Number of bytes the UTF-8 encoding of `c` takes. */
  function Utf8Width(c: char): nat {
    var n := c as int;
    if n < 0x80 then 1 else if n < 0x800 then 2 else if n < 0x1_0000 then 3 else 4
  }

  /** `str::len`: the length of the UTF-8 encoding in bytes, not the number
      of characters. */
  function Utf8Len(s: string): nat
  {
    if |s| == 0 then 0 else Utf8Width(s[0]) + Utf8Len(s[1..])
  }

  /** Every character takes at least one byte, so the byte length bounds the
      character count; equality holds exactly for ASCII strings. */
  lemma {:induction false} Utf8LenVsLength(s: string)
    ensures Utf8Len(s) >= |s|
    ensures Utf8Len(s) == |s| <==> AllAscii(s)
  {
    if |s| > 0 {
      Utf8LenVsLength(s[1..]);
      if AllAscii(s[1..]) && IsAscii(s[0]) {
        assert AllAscii(s) by {
          forall i | 0 <= i < |s| ensures IsAscii(s[i]) {
            if i > 0 { assert s[i] == s[1..][i - 1]; }
          }
        }
      }
      if AllAscii(s) {
        assert AllAscii(s[1..]) by {
          forall i | 0 <= i < |s| - 1 ensures IsAscii(s[1..][i]) {
            assert s[1..][i] == s[i + 1];
          }
        }
      }
    }
  }

  /** `validate_token`: 25 bytes long and all ASCII. Once the token is
      ASCII its byte length is its character count, so the check reads
      "25 ASCII characters". */
  predicate ValidateToken(token: string): (ok: bool)
    ensures ok <==> |token| == TOKEN_LENGTH && AllAscii(token)
  {
    Utf8LenVsLength(token);
    Utf8Len(token) == TOKEN_LENGTH && AllAscii(token)
  }

  /** A token that passed validation; `AsRef` gives back its text. */
  datatype SubscriberToken = SubscriberToken(token: string) {
    function AsRef(): string { token }
  }

  /** `SubscriberToken::parse`. */
  function ParseToken(token: string): (r: Result<SubscriberToken, string>)
    ensures r.Success? <==> |token| == TOKEN_LENGTH && AllAscii(token)
    ensures r.Success? ==> r.value.AsRef() == token
    ensures r.Failure? ==> r.error == token + " is not a valid subscriber token"
  {
    if ValidateToken(token) then Success(SubscriberToken(token))
    else Failure(token + " is not a valid subscriber token")
  }

  /** ASCII letters and digits. */
  predicate IsAsciiAlphanumeric(c: char) {
    ('A' <= c <= 'Z') || ('a' <= c <= 'z') || ('0' <= c <= '9')
  }

  /** An index into the 62-character alphabet the random generator samples. */
  type AlphanumericIndex = i: int | 0 <= i < 62

  /** The sampled character: `A`-`Z`, then `a`-`z`, then `0`-`9`. */
  function Alphanumeric(i: AlphanumericIndex): (c: char)
    ensures IsAsciiAlphanumeric(c)
  {
    if i < 26 then ('A' as int + i) as char
    else if i < 52 then ('a' as int + (i - 26)) as char
    else ('0' as int + (i - 52)) as char
  }

  /** `generate_subscription_token`: 25 samples from the random source,
      which is modelled as the stream `draw` of alphabet indices. */
  function GenerateSubscriptionToken(draw: nat -> AlphanumericIndex): (t: string)
    ensures |t| == TOKEN_LENGTH
    ensures forall i :: 0 <= i < |t| ==> IsAsciiAlphanumeric(t[i])
  {
    var t := seq(TOKEN_LENGTH, i requires 0 <= i => Alphanumeric(draw(i)));
    assert forall i :: 0 <= i < |t| ==> t[i] == Alphanumeric(draw(i));
    t
  }

  /** Round trip across the two files: every token the generator can produce
      is accepted by `validate_token` and parses to itself. */
  lemma GeneratedTokenIsValid(draw: nat -> AlphanumericIndex)
    ensures ValidateToken(GenerateSubscriptionToken(draw))
    ensures ParseToken(GenerateSubscriptionToken(draw))
         == Success(SubscriberToken(GenerateSubscriptionToken(draw)))
  {
    var t := GenerateSubscriptionToken(draw);
    assert AllAscii(t) by {
      forall i | 0 <= i < |t| ensures IsAscii(t[i]) {
        assert IsAsciiAlphanumeric(t[i]);
      }
    }
  }
}
