/** Turning the phone number a patient typed into the destination address of a WhatsApp
    message: formatting characters are removed, and a number without an international prefix
    gets the default country code, +92 (Pakistan), in place of its leading trunk digit 0. */
module PhoneFormat {
  import opened JsValues

  /** The marker that starts an international number */
  const InternationalPrefix: char := '+'

  /** The trunk prefix of a national number */
  const TrunkPrefix: char := '0'

  /** The country code assumed for every national number */
  const DefaultCountryCode: string := "+92"

  /** `\s` in an ECMAScript regular expression: the WhiteSpace and LineTerminator code points */
  predicate IsJsWhiteSpace(c: char)
  {
    || c == '\t' || c == '\n' || c == '\U{000B}' || c == '\U{000C}' || c == '\r' || c == ' '
    || c == '\U{00A0}' || c == '\U{1680}' || ('\U{2000}' <= c <= '\U{200A}')
    || c == '\U{2028}' || c == '\U{2029}' || c == '\U{202F}' || c == '\U{205F}'
    || c == '\U{3000}' || c == '\U{FEFF}'
  }

  /** The characters of the class `[\s\-\(\)]` */
  predicate IsFormatting(c: char)
  {
    IsJsWhiteSpace(c) || c == '-' || c == '(' || c == ')'
  }

  /** No character of `s` is a formatting character */
  predicate IsStripped(s: string)
  {
    forall i | 0 <= i < |s| :: !IsFormatting(s[i])
  }

  /** `s.replace(/[\s\-\(\)]/g, '')`, which never lengthens the string */
  function Strip(s: string): (r: string)
    ensures |r| <= |s|
  {
    if s == [] then []
    else (if IsFormatting(s[0]) then [] else [s[0]]) + Strip(s[1..])
  }

  /** The number as it is sent to WhatsApp (the local `whatsappNumber` once it has been
      stripped and given a country code) */
  function NormalizePhone(phone: string): (r: string)
    ensures |r| > 0 && r[0] == InternationalPrefix
  {
    var stripped := Strip(phone);
    if |stripped| > 0 && stripped[0] == InternationalPrefix then stripped
    else if |stripped| > 0 && stripped[0] == TrunkPrefix then DefaultCountryCode + stripped[1..]
    else DefaultCountryCode + stripped
  }

  /** No formatting character survives stripping */
  lemma {:induction false} StripRemovesFormatting(s: string)
    ensures IsStripped(Strip(s))
  {
    if s != [] {
      StripRemovesFormatting(s[1..]);
    }
  }

  /** The normalised number carries no formatting character */
  lemma NormalizeRemovesFormatting(phone: string)
    ensures IsStripped(NormalizePhone(phone))
  {
    StripRemovesFormatting(phone);
  }

  /** Stripping acts on each character on its own: it distributes over concatenation */
  lemma {:induction false} StripAppend(a: string, b: string)
    ensures Strip(a + b) == Strip(a) + Strip(b)
  {
    if a != [] {
      var head := if IsFormatting(a[0]) then [] else [a[0]];
      assert (a + b)[0] == a[0];
      assert (a + b)[1..] == a[1..] + b;
      calc {
        Strip(a + b);
        head + Strip(a[1..] + b);
        { StripAppend(a[1..], b); }
        head + (Strip(a[1..]) + Strip(b));
        (head + Strip(a[1..])) + Strip(b);
      }
    } else {
      assert a + b == b;
    }
  }

  /** A single character is kept exactly when it is not a formatting character */
  lemma StripChar(c: char)
    ensures Strip([c]) == if IsFormatting(c) then [] else [c]
  {
  }

  /** Every other character keeps its number of occurrences, and no formatting character survives */
  lemma {:induction false} StripCounts(s: string, c: char)
    ensures multiset(Strip(s))[c] == if IsFormatting(c) then 0 else multiset(s)[c]
  {
    if s != [] {
      StripCounts(s[1..], c);
      assert s == [s[0]] + s[1..];
    }
  }

  /** A string without formatting characters is left as it is, and only such a string is */
  lemma {:induction false} StripFixedPoints(s: string)
    ensures Strip(s) == s <==> IsStripped(s)
  {
    if s != [] {
      StripFixedPoints(s[1..]);
      if !IsFormatting(s[0]) {
        assert IsStripped(s) <==> IsStripped(s[1..]) by {
          assert forall i | 1 <= i < |s| :: s[i] == s[1..][i - 1];
        }
      } else {
        StripRemovesFormatting(s[1..]);
        assert |Strip(s)| < |s| by { assert |Strip(s)| == |Strip(s[1..])|; }
      }
    }
  }

  /** A string of decimal digits has nothing to strip */
  lemma DigitsStripped(s: string)
    requires IsDigits(s)
    ensures Strip(s) == s
  {
    StripFixedPoints(s);
  }

  /** Stripping twice is stripping once */
  lemma StripIdempotent(s: string)
    ensures Strip(Strip(s)) == Strip(s)
  {
    StripRemovesFormatting(s);
    StripFixedPoints(Strip(s));
  }

  /** The stripped number is sent as it is exactly when it already carries the international
      prefix; every other number grows by at most the country code */
  lemma NormalizeKeepsInternational(phone: string)
    ensures NormalizePhone(phone) == Strip(phone) <==>
              (|Strip(phone)| > 0 && Strip(phone)[0] == InternationalPrefix)
    ensures |NormalizePhone(phone)| <= |Strip(phone)| + |DefaultCountryCode|
  {
  }

  /** A number is left unchanged by the normalisation exactly when it already is an
      international number without formatting characters */
  lemma NormalizeFixedPoints(phone: string)
    ensures NormalizePhone(phone) == phone <==> (|phone| > 0 && phone[0] == InternationalPrefix && IsStripped(phone))
  {
    StripFixedPoints(phone);
  }

  /** Normalising an already normalised number changes nothing */
  lemma NormalizeIdempotent(phone: string)
    ensures NormalizePhone(NormalizePhone(phone)) == NormalizePhone(phone)
  {
    NormalizeRemovesFormatting(phone);
    NormalizeFixedPoints(NormalizePhone(phone));
  }

  /** A number whose stripped form starts with the trunk digit gets +92 in its place */
  lemma NormalizeTrunk(phone: string, rest: string)
    requires Strip(phone) == [TrunkPrefix] + rest
    ensures NormalizePhone(phone) == DefaultCountryCode + rest
  {
    assert ([TrunkPrefix] + rest)[1..] == rest;
  }

  /** A national number written as an area code with its trunk digit, a dash and the
      subscriber number becomes +92, the area code without its trunk digit, and the subscriber number */
  lemma NormalizeDashedNational(area: string, subscriber: string)
    requires |area| > 0 && area[0] == TrunkPrefix && IsDigits(area) && IsDigits(subscriber)
    ensures NormalizePhone(area + "-" + subscriber) == DefaultCountryCode + area[1..] + subscriber
  {
    var t := area + subscriber;
    calc {
      Strip(area + "-" + subscriber);
      { StripAppend(area + "-", subscriber); }
      Strip(area + "-") + Strip(subscriber);
      { StripAppend(area, "-"); StripChar('-'); }
      Strip(area) + Strip(subscriber);
      { DigitsStripped(area); DigitsStripped(subscriber); }
      t;
    }
    assert t == [TrunkPrefix] + (area[1..] + subscriber);
    NormalizeTrunk(area + "-" + subscriber, area[1..] + subscriber);
  }

  /** A national number written with a dash */
  lemma NormalizeTrunkExample()
    ensures NormalizePhone("0300-1234567") == "+923001234567"
  {
    assert IsDigits("0300") && IsDigits("1234567");
    NormalizeDashedNational("0300", "1234567");
    assert "0300" + "-" + "1234567" == "0300-1234567";
    assert "+92" + "0300"[1..] + "1234567" == "+923001234567";
  }

  /** A number whose stripped form starts with neither the international nor the trunk prefix,
      the empty one included, gets +92 in front of it */
  lemma NormalizeNational(phone: string)
    requires !(|Strip(phone)| > 0 && (Strip(phone)[0] == InternationalPrefix || Strip(phone)[0] == TrunkPrefix))
    ensures NormalizePhone(phone) == DefaultCountryCode + Strip(phone)
  {
  }

  /** A national number of digits only, without its trunk digit, is prefixed with +92 */
  lemma NormalizeDigitsOnly(digits: string)
    requires IsDigits(digits) && !(|digits| > 0 && digits[0] == TrunkPrefix)
    ensures NormalizePhone(digits) == DefaultCountryCode + digits
  {
    DigitsStripped(digits);
    NormalizeNational(digits);
  }

  /** A national number written without its trunk digit */
  lemma NormalizeNoTrunkExample()
    ensures NormalizePhone("3001234567") == "+923001234567"
  {
    assert "+92" + "3001234567" == "+923001234567";
    assert IsDigits("3001234567");
    NormalizeDigitsOnly("3001234567");
  }
}
