/** The printed number of a document, and reading it back. */
module DocumentNumbers {
  import opened Options

  datatype Kind = Quote | Waybill | Invoice | Receipt

  datatype Number = Number(code: string, kind: Kind, year: nat, serial: nat)

  function KindText(kind: Kind): string {
    match kind
    case Quote => "QT"
    case Waybill => "WB"
    case Invoice => "IN"
    case Receipt => "RC"
  }

  function KindOf(text: string): Option<Kind> {
    if text == "QT" then Some(Quote)
    else if text == "WB" then Some(Waybill)
    else if text == "IN" then Some(Invoice)
    else if text == "RC" then Some(Receipt)
    else None
  }

  /** Three or four capital letters. */
  predicate ValidCode(code: string) {
    3 <= |code| <= 4 && forall i | 0 <= i < |code| :: 'A' <= code[i] <= 'Z'
  }

  predicate Digits(text: string) {
    forall i | 0 <= i < |text| :: '0' <= text[i] <= '9'
  }

  function Decimal(n: nat): (text: string)
    ensures Digits(text) && text != ""
  {
    (if n < 10 then "" else Decimal(n / 10)) + [('0' as int + n % 10) as char]
  }

  /** Zeros in front, up to five digits; a longer number is printed in full. */
  function Padded(text: string): (padded: string)
    ensures Digits(text) ==> Digits(padded)
    decreases 5 - |text|
  {
    if |text| >= 5 then text else Padded("0" + text)
  }

  function Print(n: Number): string {
    "Hol-" + n.code + "-" + KindText(n.kind) + "-" + Decimal(n.year) + "-" + Padded(Decimal(n.serial))
  }

  // ---- reading

  function Value(text: string): nat
    requires Digits(text)
  {
    if text == "" then 0 else Value(text[..|text| - 1]) * 10 + (text[|text| - 1] as int - '0' as int)
  }

  /** The parts of a text between dashes. */
  function Split(text: string): (parts: seq<string>)
    ensures parts != []
    decreases |text|
  {
    if text == "" then [""]
    else if text[0] == '-' then [""] + Split(text[1..])
    else
      var rest := Split(text[1..]);
      [[text[0]] + rest[0]] + rest[1..]
  }

  function Parse(text: string): Option<Number> {
    var parts := Split(text);
    if |parts| == 5 && parts[0] == "Hol" && KindOf(parts[2]).Some? && Digits(parts[3]) && Digits(parts[4])
    then Some(Number(parts[1], KindOf(parts[2]).value, Value(parts[3]), Value(parts[4])))
    else None
  }

  lemma {:induction false} SplitWord(word: string, rest: string)
    requires '-' !in word
    ensures Split(word + "-" + rest) == [word] + Split(rest)
    decreases |word|
  {
    var text := word + "-" + rest;
    if word == "" {
      assert text[1..] == rest;
    } else {
      assert text[1..] == word[1..] + "-" + rest;
      SplitWord(word[1..], rest);
      assert [word[0]] + word[1..] == word;
    }
  }

  lemma {:induction false} SplitLast(word: string)
    requires '-' !in word
    ensures Split(word) == [word]
    decreases |word|
  {
    if word != "" {
      SplitLast(word[1..]);
      assert [word[0]] + word[1..] == word;
    }
  }

  lemma {:induction false} ValueOfDecimal(n: nat)
    ensures Value(Decimal(n)) == n
    decreases n
  {
    if n >= 10 {
      ValueOfDecimal(n / 10);
      assert Decimal(n)[..|Decimal(n)| - 1] == Decimal(n / 10);
    } else {
      assert Decimal(n)[..0] == "";
    }
  }

  lemma {:induction false} ValueOfZero(text: string)
    requires Digits(text)
    ensures Digits("0" + text) && Value("0" + text) == Value(text)
    decreases |text|
  {
    var longer := "0" + text;
    if text == "" {
      assert longer[..0] == "";
    } else {
      ValueOfZero(text[..|text| - 1]);
      assert longer[..|longer| - 1] == "0" + text[..|text| - 1];
    }
  }

  lemma {:induction false} ValueOfPadded(text: string)
    requires Digits(text)
    ensures Value(Padded(text)) == Value(text)
    decreases 5 - |text|
  {
    if |text| < 5 {
      ValueOfZero(text);
      ValueOfPadded("0" + text);
    }
  }

  lemma {:induction false} SplitFive(a: string, b: string, c: string, d: string, e: string)
    requires '-' !in a && '-' !in b && '-' !in c && '-' !in d && '-' !in e
    ensures Split(a + "-" + (b + "-" + (c + "-" + (d + "-" + e)))) == [a, b, c, d, e]
  {
    SplitWord(a, b + "-" + (c + "-" + (d + "-" + e)));
    SplitWord(b, c + "-" + (d + "-" + e));
    SplitWord(c, d + "-" + e);
    SplitWord(d, e);
    SplitLast(e);
  }

  lemma {:induction false} NoDash(n: Number)
    requires ValidCode(n.code)
    ensures '-' !in n.code && '-' !in Decimal(n.year) && '-' !in Padded(Decimal(n.serial)) && '-' !in KindText(n.kind)
  {
  }

  lemma {:induction false} Associated(a: string, b: string, c: string, d: string, e: string)
    ensures a + "-" + b + "-" + c + "-" + d + "-" + e == a + "-" + (b + "-" + (c + "-" + (d + "-" + e)))
  {
    var de := d + "-" + e;
    assert c + "-" + d + "-" + e == c + "-" + de;
    var cde := c + "-" + de;
    assert b + "-" + c + "-" + d + "-" + e == b + "-" + cde;
    assert a + "-" + b + "-" + c + "-" + d + "-" + e == a + "-" + (b + "-" + cde);
  }

  lemma {:induction false} PrintedParts(n: Number)
    requires ValidCode(n.code)
    ensures Split(Print(n)) == ["Hol", n.code, KindText(n.kind), Decimal(n.year), Padded(Decimal(n.serial))]
  {
    NoDash(n);
    assert "Hol-" == "Hol" + "-";
    Associated("Hol", n.code, KindText(n.kind), Decimal(n.year), Padded(Decimal(n.serial)));
    SplitFive("Hol", n.code, KindText(n.kind), Decimal(n.year), Padded(Decimal(n.serial)));
  }

  lemma {:induction false} ParseParts(text: string, n: Number, year: string, serial: string)
    requires Split(text) == ["Hol", n.code, KindText(n.kind), year, serial] && Digits(year) && Digits(serial)
    ensures Parse(text) == Some(Number(n.code, n.kind, Value(year), Value(serial)))
  {
  }

  /** A printed number reads back to what it was printed from, also past five digits. */
  lemma {:induction false} ParsePrint(n: Number)
    requires ValidCode(n.code)
    ensures Parse(Print(n)) == Some(n)
  {
    PrintedParts(n);
    ValueOfDecimal(n.year);
    ValueOfDecimal(n.serial);
    ValueOfPadded(Decimal(n.serial));
    ParseParts(Print(n), n, Decimal(n.year), Padded(Decimal(n.serial)));
  }

  /** No two numbers print alike. */
  lemma {:induction false} PrintInjective(a: Number, b: Number)
    requires ValidCode(a.code) && ValidCode(b.code) && Print(a) == Print(b)
    ensures a == b
  {
    ParsePrint(a);
    ParsePrint(b);
  }
}
