/** Sources/NYNetwork/NYError.swift: the closed error taxonomy handed to callers, and the text
    each variant reports. `IntText` is Swift's interpolation of an `Int` into a string. */
module NYErrors {
  import opened Foundation

  /** The four error kinds a completion can carry. A standard error's model is absent unless given. */
  datatype NYError<+E> =
    | Standard(statusCode: int, model: Option<E> := None)
    | Technical(title: string, description: string)
    | Unexpected(description: string, data: Option<Data>)
    | UnableToConnect
  {
    /** `localizedDescription`, total over the four variants. */
    function LocalizedDescription(): (r: string)
      ensures Standard? ==> r == StatusPrefix + IntText(statusCode)
      ensures Standard? ==> ParseInt(r[|StatusPrefix|..]) == statusCode
      ensures Technical? ==> |r| == |title| + 1 + |description|
      ensures Technical? ==> r[..|title|] == title && r[|title|] == '\n' && r[|title| + 1..] == description
      ensures Unexpected? ==> r == description
      ensures UnableToConnect? ==> r == UnableToConnectText
    {
      match this
      case Standard(statusCode, _) =>
        IntTextRoundTrip(statusCode);
        assert (StatusPrefix + IntText(statusCode))[|StatusPrefix|..] == IntText(statusCode);
        StatusPrefix + IntText(statusCode)
      case Technical(title, description) => title + "\n" + description
      case Unexpected(description, _) => description
      case UnableToConnect => UnableToConnectText
    }
  }

  const StatusPrefix: string := "Status code:: "

  const UnableToConnectText: string :=
    "Unable to connect to network\nCheck if you have Wi-Fi or mobile Internet enabled, and try again"

  predicate IsDigit(c: char) {
    '0' <= c <= '9'
  }

  predicate AllDigits(s: string) {
    forall i :: 0 <= i < |s| ==> IsDigit(s[i])
  }

  function DigitChar(d: int): (c: char)
    requires 0 <= d < 10
    ensures IsDigit(c) && c as int - '0' as int == d
  {
    (d + '0' as int) as char
  }

  /** Decimal digits of a natural number, most significant first, without leading zeros. */
  function NaturalText(n: nat): (s: string)
    ensures |s| > 0 && AllDigits(s)
    ensures n >= 10 ==> s[0] != '0'
    decreases n
  {
    if n < 10 then [DigitChar(n)] else NaturalText(n / 10) + [DigitChar(n % 10)]
  }

  /** Swift's `"\(n)"` for an `Int`: a minus sign before the digits of a negative number. */
  function IntText(n: int): (s: string)
    ensures |s| > 0
  {
    if n < 0 then "-" + NaturalText(-n) else NaturalText(n)
  }

  function ParseNatural(s: string): (n: nat)
    requires AllDigits(s)
  {
    if s == [] then 0 else 10 * ParseNatural(s[..|s| - 1]) + (s[|s| - 1] as int - '0' as int)
  }

  /** Reads back the text `IntText` produces: an optional minus sign, then digits. */
  function ParseInt(s: string): (n: int)
  {
    if |s| > 0 && s[0] == '-' && AllDigits(s[1..]) then -(ParseNatural(s[1..]) as int)
    else if AllDigits(s) then ParseNatural(s)
    else 0
  }

  lemma {:induction false} NaturalTextRoundTrip(n: nat)
    ensures ParseNatural(NaturalText(n)) == n
    decreases n
  {
    var s := NaturalText(n);
    if n >= 10 {
      NaturalTextRoundTrip(n / 10);
      assert s[..|s| - 1] == NaturalText(n / 10);
    }
  }

  /** The status code can be read back from its text, so the text never loses it. */
  lemma IntTextRoundTrip(n: int)
    ensures ParseInt(IntText(n)) == n
  {
    if n < 0 {
      NaturalTextRoundTrip(-n);
      assert IntText(n)[1..] == NaturalText(-n);
    } else {
      NaturalTextRoundTrip(n);
    }
  }

  /** A standard error's text depends on its status code and never on its model. */
  lemma StandardDescriptionIgnoresModel<E>(statusCode: int, a: Option<E>, b: Option<E>)
    ensures Standard(statusCode, a).LocalizedDescription() == Standard(statusCode, b).LocalizedDescription()
  {
  }

  /** Two standard errors report the same text exactly when they carry the same status code. */
  lemma StandardDescriptionDeterminesStatus<E>(x: NYError<E>, y: NYError<E>)
    requires x.Standard? && y.Standard?
    ensures x.LocalizedDescription() == y.LocalizedDescription() <==> x.statusCode == y.statusCode
  {
  }

  /** Equal titles and descriptions give equal text, whatever the title holds. */
  lemma TechnicalDescriptionOfEqualParts<E>(x: NYError<E>, y: NYError<E>)
    requires x.Technical? && y.Technical?
    requires x.title == y.title && x.description == y.description
    ensures x.LocalizedDescription() == y.LocalizedDescription()
  {
  }

  /** When neither title holds a line break, a technical error's text determines both title and description. */
  lemma TechnicalDescriptionDeterminesParts<E>(x: NYError<E>, y: NYError<E>)
    requires x.Technical? && y.Technical?
    requires '\n' !in x.title && '\n' !in y.title
    ensures x.LocalizedDescription() == y.LocalizedDescription() ==> x.title == y.title && x.description == y.description
  {
  }

  /** Without that condition the text is ambiguous: the line break may belong to the title or the description. */
  lemma TechnicalDescriptionAmbiguousWithLineBreak()
    ensures var x: NYError<int> := Technical("a\nb", "c");
      var y: NYError<int> := Technical("a", "b\nc");
      x != y && x.LocalizedDescription() == y.LocalizedDescription() == "a\nb\nc"
  {
  }

  /** Omitting the model of a standard error leaves it absent. */
  lemma StandardModelDefaultsToAbsent<E>(statusCode: int)
    ensures var e: NYError<E> := Standard(statusCode); e.model == None
  {
  }
}
