/** `AdminPassword::parse` (src/domain/admin_password.rs): an admin password
    is accepted when it has between 12 and 128 grapheme clusters and is not
    empty or made only of whitespace. The three checks run in a fixed order
    and the first failing one names the error.

    Grapheme segmentation (Unicode extended grapheme clusters) is done by a
    library; the model receives the password already segmented, as a
    sequence of non-empty clusters whose concatenation is the string. */
module AdminPasswords {
  import opened Wrappers

  /** One extended grapheme cluster: a non-empty run of characters. */
  type Grapheme = g: string | |g| > 0 witness "a"

  /** A string together with its segmentation into grapheme clusters. */
  type Text = seq<Grapheme>

  const MIN_GRAPHEMES: nat := 12
  const MAX_GRAPHEMES: nat := 128

  /** The characters of a segmented string, in order. */
  function Chars(t: Text): string
  {
    if |t| == 0 then "" else t[0] + Chars(t[1..])
  }

  /** Rust's `char::is_whitespace`: the Unicode `White_Space` property. */
  predicate IsWhitespace(c: char) {
    var n := c as int;
    || (0x09 <= n <= 0x0D) || n == 0x20 || n == 0x85 || n == 0xA0
    || n == 0x1680 || (0x2000 <= n <= 0x200A) || n == 0x2028 || n == 0x2029
    || n == 0x202F || n == 0x205F || n == 0x3000
  }

  /** `s.trim().is_empty()`: nothing is left once leading and trailing
      whitespace is removed, i.e. every character is whitespace. */
  predicate IsBlank(s: string) {
    forall i :: 0 <= i < |s| ==> IsWhitespace(s[i])
  }

  /** A validated password; `AsRef` exposes the wrapped secret. */
  datatype AdminPassword = AdminPassword(secret: string) {
    function AsRef(): string { secret }
  }

  datatype ParseError = TooLong | TooShort | EmptyOrWhitespace {
    function Message(): string {
      match this
      case TooLong => "Invalid password, too long"
      case TooShort => "Invalid password, too short"
      case EmptyOrWhitespace => "Invalid password, can't be empty or only whitespaces"
    }
  }

  /** `AdminPassword::parse`. */
  function Parse(password: Text): (r: Result<AdminPassword, ParseError>)
    ensures r.Success? <==> MIN_GRAPHEMES <= |password| <= MAX_GRAPHEMES && !IsBlank(Chars(password))
    ensures r.Success? ==> r.value.AsRef() == Chars(password)
  {
    var isEmptyOrWhitespace := IsBlank(Chars(password));
    var isTooLong := |password| > MAX_GRAPHEMES;
    var isTooShort := |password| < MIN_GRAPHEMES;
    if isTooLong then Failure(TooLong)
    else if isTooShort then Failure(TooShort)
    else if isEmptyOrWhitespace then Failure(EmptyOrWhitespace)
    else Success(AdminPassword(Chars(password)))
  }

  /** Each error is reported exactly when its check is the first to fail:
      length above the maximum first, then below the minimum, then blank. */
  lemma ParseErrorOrder(password: Text)
    ensures Parse(password) == Failure(TooLong) <==> |password| > MAX_GRAPHEMES
    ensures Parse(password) == Failure(TooShort) <==> |password| < MIN_GRAPHEMES
    ensures Parse(password) == Failure(EmptyOrWhitespace)
        <==> MIN_GRAPHEMES <= |password| <= MAX_GRAPHEMES && IsBlank(Chars(password))
  {
  }

  /** `n` copies of the cluster `g`: the segmentation of `g` repeated, for
      a one-character `g` such as "a" or " ". */
  function Repeat(g: Grapheme, n: nat): (t: Text)
    ensures |t| == n
    ensures forall i :: 0 <= i < n ==> t[i] == g
  {
    seq(n, _ => g)
  }

  lemma {:induction false} CharsOfWhitespaceIsBlank(g: Grapheme, n: nat)
    requires IsBlank(g)
    ensures IsBlank(Chars(Repeat(g, n)))
  {
    if n > 0 {
      var t := Repeat(g, n);
      assert t[1..] == Repeat(g, n - 1);
      CharsOfWhitespaceIsBlank(g, n - 1);
      assert Chars(t) == g + Chars(Repeat(g, n - 1));
    }
  }

  lemma CharsStartWithFirstCluster(t: Text)
    requires |t| > 0
    ensures |Chars(t)| > 0 && Chars(t)[0] == t[0][0]
  {
  }

  /** Twenty spaces pass both length checks and fail as blank. */
  lemma TwentySpacesAreBlank()
    ensures Parse(Repeat(" ", 20)) == Failure(EmptyOrWhitespace)
  {
    CharsOfWhitespaceIsBlank(" ", 20);
  }

  /** A single space fails as too short: length is checked before blankness. */
  lemma OneSpaceIsTooShort()
    ensures Parse(Repeat(" ", 1)) == Failure(TooShort)
    ensures IsBlank(Chars(Repeat(" ", 1)))
  {
  }

  /** The boundary cases: empty and 11 rejected, 12 and 128 accepted,
      129 rejected as too long; an accepted password wraps its input. */
  lemma LengthBoundaries()
    ensures Parse([]) == Failure(TooShort)
    ensures Parse(Repeat("a", 11)) == Failure(TooShort)
    ensures Parse(Repeat("a", 12)).Success?
    ensures Parse(Repeat("a", 128)) == Success(AdminPassword(Chars(Repeat("a", 128))))
    ensures Parse(Repeat("a", 129)) == Failure(TooLong)
  {
    CharsStartWithFirstCluster(Repeat("a", 12));
    CharsStartWithFirstCluster(Repeat("a", 128));
  }
}
