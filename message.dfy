/** The Slack message of the billing notifier (`generate_message`): a title
    with the rounded total, the account line, and one line per service whose
    rounded amount is not zero, joined by newlines. */
module Message {
  import opened Wrappers
  import opened DecimalText
  import opened CostQuery

  /** `round(amount, 2)` as a whole number of cents: the nearest cent, ties
      to the even cent. */
  function Round2(amount: real): (cents: int)
    ensures -0.5 <= amount * 100.0 - cents as real <= 0.5
    ensures amount * 100.0 - cents as real == 0.5 ==> cents % 2 == 0
    ensures amount * 100.0 - cents as real == -0.5 ==> cents % 2 == 0
  {
    var scaled := amount * 100.0;
    var floor := scaled.Floor;
    var fraction := scaled - floor as real;
    if fraction < 0.5 then floor
    else if fraction > 0.5 then floor + 1
    else if floor % 2 == 0 then floor
    else floor + 1
  }

  /** An amount already in whole cents is left as it is. */
  lemma Round2OfCents(cents: int)
    ensures Round2(cents as real / 100.0) == cents
  {
  }

  /** A rounded amount is zero exactly when the amount is at most half a
      cent away from zero. */
  lemma Round2Zero(amount: real)
    ensures Round2(amount) == 0 <==> -0.005 <= amount <= 0.005
  {
  }

  /** `f'{x:.2f}'` of an amount of `cents` cents. */
  function FormatCents(cents: int): (s: string) {
    var magnitude := if cents < 0 then -cents else cents;
    (if cents < 0 then "-" else "") + Decimal(magnitude / 100) + "." + Padded(magnitude % 100, 2)
  }

  /** The text of an amount is a minus sign exactly for a negative amount,
      then the whole units without leading zeros, a point and two digits;
      it holds no newline. */
  lemma FormatCentsShape(cents: int)
    ensures var s := FormatCents(cents);
            && |s| >= 4 && (s[0] == '-' <==> cents < 0)
            && var digits := if cents < 0 then s[1..] else s;
               && |digits| >= 4
               && digits[|digits| - 3] == '.'
               && IsDigit(digits[0])
               && (digits[0] == '0' <==> -100 < cents < 100)
               && '\n' !in s
  {
    var magnitude := if cents < 0 then -cents else cents;
    var whole := Decimal(magnitude / 100);
    var unsigned := whole + "." + Padded(magnitude % 100, 2);
    assert unsigned[0] == whole[0];
    assert unsigned[|unsigned| - 3] == '.';
    if cents < 0 {
      assert FormatCents(cents) == "-" + unsigned;
      assert FormatCents(cents)[1..] == unsigned;
    } else {
      assert FormatCents(cents) == unsigned;
    }
  }

  /** Reads an optional minus sign, digits, a point and two digits. */
  function ParseCents(s: string): (r: Option<int>)
  {
    if |s| > 0 && s[0] == '-' then
      match ParseUnsignedCents(s[1..])
      case Some(v) => Some(-(v as int))
      case None => None
    else ParseUnsignedCents(s)
  }

  function ParseUnsignedCents(s: string): (r: Option<nat>) {
    if |s| >= 4 && s[|s| - 3] == '.' && AllDigits(s[..|s| - 3]) && AllDigits(s[|s| - 2..])
    then Some(100 * ValueOf(s[..|s| - 3]) + ValueOf(s[|s| - 2..]))
    else None
  }

  lemma UnsignedCentsRoundTrip(n: nat)
    ensures var s := Decimal(n / 100) + "." + Padded(n % 100, 2);
            ParseUnsignedCents(s) == Some(n) && s[0] != '-'
  {
    var whole := Decimal(n / 100);
    var s := whole + "." + Padded(n % 100, 2);
    assert s[..|s| - 3] == whole;
    assert s[|s| - 2..] == Padded(n % 100, 2);
    DecimalValue(n / 100);
    PaddedValue(n % 100, 2);
  }

  /** The text of an amount denotes that amount. */
  lemma FormatCentsRoundTrip(cents: int)
    ensures ParseCents(FormatCents(cents)) == Some(cents)
  {
    var magnitude := if cents < 0 then -cents else cents;
    var unsigned := Decimal(magnitude / 100) + "." + Padded(magnitude % 100, 2);
    UnsignedCentsRoundTrip(magnitude);
    if cents < 0 {
      assert FormatCents(cents) == "-" + unsigned;
      assert FormatCents(cents)[1..] == unsigned;
    } else {
      assert FormatCents(cents) == unsigned;
    }
  }

  const TITLE_PREFIX := "今月のAWS請求額は "
  const TITLE_SUFFIX := "です。"
  const ACCOUNT_PREFIX := "アカウントID: "
  const SERVICE_PREFIX := " ・"

  /** One line of the message, before it is rendered as text. */
  datatype Line =
    | Title(total: int, unit: string)
    | Account(id: string)
    | Service(name: string, amount: int, unit: string)

  /** `text` is `head`, then the text of an amount of `cents` cents, then
      `tail`. */
  predicate Framed(text: string, head: string, tail: string, cents: int) {
    && |head| + |tail| <= |text|
    && text[..|head|] == head
    && text[|text| - |tail|..] == tail
    && text[|head|..|text| - |tail|] == FormatCents(cents)
  }

  lemma FramedAmount(head: string, tail: string, cents: int)
    ensures Framed(head + FormatCents(cents) + tail, head, tail, cents)
    ensures '\n' !in head && '\n' !in tail ==> '\n' !in head + FormatCents(cents) + tail
  {
    var amount := FormatCents(cents);
    var text := head + amount + tail;
    FormatCentsShape(cents);
    assert text[..|head|] == head;
    assert text[|text| - |tail|..] == tail;
    assert text[|head|..|text| - |tail|] == amount;
  }

  /** The f-strings of `generate_message`. The title and service texts are a
      fixed head and tail around the text of the amount (which reads back as
      the amount, `FormatCentsRoundTrip`); the account text is its head and
      the id. No newline appears
      unless one of the strings a line carries holds one. */
  function Render(line: Line): (text: string)
    ensures line.Title? ==>
              && Framed(text, TITLE_PREFIX, " " + line.unit + TITLE_SUFFIX, line.total)
              && ('\n' !in line.unit ==> '\n' !in text)
    ensures line.Account? ==>
              && |ACCOUNT_PREFIX| <= |text|
              && text[..|ACCOUNT_PREFIX|] == ACCOUNT_PREFIX
              && text[|ACCOUNT_PREFIX|..] == line.id
              && ('\n' !in line.id ==> '\n' !in text)
    ensures line.Service? ==>
              && Framed(text, SERVICE_PREFIX + line.name + ": ", " " + line.unit, line.amount)
              && ('\n' !in line.name && '\n' !in line.unit ==> '\n' !in text)
  {
    match line
    case Title(total, unit) =>
      FramedAmount(TITLE_PREFIX, " " + unit + TITLE_SUFFIX, total);
      TITLE_PREFIX + FormatCents(total) + (" " + unit + TITLE_SUFFIX)
    case Account(id) => ACCOUNT_PREFIX + id
    case Service(name, amount, unit) =>
      FramedAmount(SERVICE_PREFIX + name + ": ", " " + unit, amount);
      (SERVICE_PREFIX + name + ": ") + FormatCents(amount) + (" " + unit)
  }

  function RenderAll(lines: seq<Line>): (texts: seq<string>)
    ensures |texts| == |lines|
    ensures forall i | 0 <= i < |lines| :: texts[i] == Render(lines[i])
  {
    seq(|lines|, i requires 0 <= i < |lines| => Render(lines[i]))
  }

  /** The total length of the lines. */
  function TotalLength(lines: seq<string>): (n: nat) {
    if lines == [] then 0 else |lines[0]| + TotalLength(lines[1..])
  }

  /** `'\n'.join(lines)`: it begins with the first line, ends with the last,
      and adds one newline between each two lines. */
  function Join(lines: seq<string>): (text: string)
    ensures lines != [] ==> |text| == TotalLength(lines) + |lines| - 1
    ensures lines != [] ==> text[..|lines[0]|] == lines[0]
    ensures lines != [] ==> |lines[|lines| - 1]| <= |text|
    ensures lines != [] ==> text[|text| - |lines[|lines| - 1]|..] == lines[|lines| - 1]
  {
    if |lines| == 0 then ""
    else if |lines| == 1 then lines[0]
    else
      var rest := Join(lines[1..]);
      var text := lines[0] + "\n" + rest;
      var last := lines[|lines| - 1];
      assert last == lines[1..][|lines[1..]| - 1];
      assert text[|text| - |last|..] == rest[|rest| - |last|..];
      text
  }

  /** `text.split('\n')`. */
  function Split(text: string): (lines: seq<string>)
    ensures |lines| >= 1
  {
    if text == [] then [""]
    else if text[0] == '\n' then [""] + Split(text[1..])
    else
      var rest := Split(text[1..]);
      [[text[0]] + rest[0]] + rest[1..]
  }

  lemma {:induction false} SplitOneLine(line: string)
    requires '\n' !in line
    ensures Split(line) == [line]
  {
    if line != [] {
      SplitOneLine(line[1..]);
      assert [line[0]] + line[1..] == line;
    }
  }

  lemma {:induction false} SplitAfterLine(line: string, rest: string)
    requires '\n' !in line
    ensures Split(line + "\n" + rest) == [line] + Split(rest)
  {
    var text := line + "\n" + rest;
    if line == [] {
      assert text[1..] == rest;
    } else {
      assert text[1..] == line[1..] + "\n" + rest;
      SplitAfterLine(line[1..], rest);
      assert [line[0]] + line[1..] == line;
    }
  }

  /** Splitting the joined text at newlines gives back the lines, when no
      line holds a newline of its own. */
  lemma {:induction false} SplitJoin(lines: seq<string>)
    requires |lines| >= 1
    requires forall i | 0 <= i < |lines| :: '\n' !in lines[i]
    ensures Split(Join(lines)) == lines
  {
    if |lines| == 1 {
      SplitOneLine(lines[0]);
    } else {
      SplitAfterLine(lines[0], Join(lines[1..]));
      SplitJoin(lines[1..]);
    }
  }

  /** Whether the record gets a line: its amount rounded to cents is not zero. */
  predicate Shown(r: Record) {
    Round2(r.billing) != 0
  }

  /** The number of records that get a line. */
  function CountShown(services: seq<Record>): (n: nat) {
    if services == [] then 0
    else CountShown(services[..|services| - 1]) + (if Shown(services[|services| - 1]) then 1 else 0)
  }

  /** The service lines, in the order of the records, each in `unit`. */
  function ServiceLines(services: seq<Record>, unit: string): (lines: seq<Line>) {
    if services == [] then []
    else
      var last := services[|services| - 1];
      ServiceLines(services[..|services| - 1], unit)
      + (if Shown(last) then [Service(last.service, Round2(last.billing), unit)] else [])
  }

  /** The lines of the message: the title with the rounded total and its
      unit, the account line, then the service lines in the total's unit. */
  function MessageLines(accountId: string, total: Metric, services: seq<Record>): (lines: seq<Line>) {
    [Title(Round2(total.amount), total.unit), Account(accountId)] + ServiceLines(services, total.unit)
  }

  /** `generate_message`. */
  method GenerateMessage(accountId: string, total: Metric, services: seq<Record>)
    returns (message: string)
    ensures message == Join(RenderAll(MessageLines(accountId, total, services)))
  {
    var unit := total.unit;
    var totalCents := Round2(total.amount);
    var messages := [Render(Title(totalCents, unit)), Render(Account(accountId))];
    for i := 0 to |services|
      invariant messages == RenderAll(MessageLines(accountId, total, services[..i]))
    {
      var item := services[i];
      var billing := Round2(item.billing);
      if billing != 0 {
        messages := messages + [Render(Service(item.service, billing, unit))];
      }
      assert services[..i + 1][..i] == services[..i];
    }
    assert services[..|services|] == services;
    message := Join(messages);
  }

  lemma {:induction false} ServiceLinesCount(services: seq<Record>, unit: string)
    ensures |ServiceLines(services, unit)| == CountShown(services)
  {
    if services != [] {
      ServiceLinesCount(services[..|services| - 1], unit);
    }
  }

  /** Every service line is the line of a shown record, in the total's unit. */
  lemma {:induction false} ServiceLinesShape(services: seq<Record>, unit: string)
    ensures forall line | line in ServiceLines(services, unit) ::
              line.Service? && line.unit == unit && line.amount != 0
  {
    if services != [] {
      ServiceLinesShape(services[..|services| - 1], unit);
    }
  }

  lemma {:induction false} ServiceLinesPrefix(services: seq<Record>, unit: string, i: nat)
    requires i <= |services|
    ensures ServiceLines(services[..i], unit) <= ServiceLines(services, unit)
  {
    if i < |services| {
      ServiceLinesPrefix(services[..|services| - 1], unit, i);
      assert services[..|services| - 1][..i] == services[..i];
    } else {
      assert services[..i] == services;
    }
  }

  lemma {:induction false} CountShownMonotone(services: seq<Record>, i: nat, j: nat)
    requires i <= j <= |services|
    ensures CountShown(services[..i]) <= CountShown(services[..j])
  {
    if i < j {
      CountShownMonotone(services, i, j - 1);
      assert services[..j][..j - 1] == services[..j - 1];
    }
  }

  /** A shown record's line stands at the position given by the number of
      shown records before it. */
  lemma ServiceLineOf(services: seq<Record>, unit: string, i: nat)
    requires i < |services| && Shown(services[i])
    ensures var lines := ServiceLines(services, unit);
            CountShown(services[..i]) < |lines|
            && lines[CountShown(services[..i])]
               == Service(services[i].service, Round2(services[i].billing), unit)
  {
    var upTo := services[..i + 1];
    assert upTo[..i] == services[..i];
    ServiceLinesCount(services[..i], unit);
    ServiceLinesPrefix(services, unit, i + 1);
  }

  /** Every service line is the line of a shown record, at the position given
      by the number of shown records before it. */
  lemma {:induction false} ServiceLineSource(services: seq<Record>, unit: string, k: nat)
    requires k < |ServiceLines(services, unit)|
    ensures exists i | 0 <= i < |services| ::
              && Shown(services[i])
              && CountShown(services[..i]) == k
              && ServiceLines(services, unit)[k]
                 == Service(services[i].service, Round2(services[i].billing), unit)
  {
    var init := services[..|services| - 1];
    ServiceLinesCount(init, unit);
    if k < |ServiceLines(init, unit)| {
      ServiceLineSource(init, unit, k);
      var i :| 0 <= i < |init| && Shown(init[i]) && CountShown(init[..i]) == k
               && ServiceLines(init, unit)[k] == Service(init[i].service, Round2(init[i].billing), unit);
      assert init[..i] == services[..i];
    } else {
      var i := |services| - 1;
      assert services[..i] == init;
    }
  }

  /** A line for a service appears exactly when some record of that service
      has an amount whose rounding is not zero, in the total's unit. */
  lemma ServiceLineIff(services: seq<Record>, unit: string, line: Line)
    ensures line in ServiceLines(services, unit) <==>
              exists i | 0 <= i < |services| ::
                Shown(services[i])
                && line == Service(services[i].service, Round2(services[i].billing), unit)
  {
    var lines := ServiceLines(services, unit);
    if line in lines {
      var k :| 0 <= k < |lines| && lines[k] == line;
      ServiceLineSource(services, unit, k);
    }
    if exists i | 0 <= i < |services| ::
         Shown(services[i]) && line == Service(services[i].service, Round2(services[i].billing), unit)
    {
      var i :| 0 <= i < |services| && Shown(services[i])
               && line == Service(services[i].service, Round2(services[i].billing), unit);
      ServiceLineOf(services, unit, i);
    }
  }

  /** The lines keep the order of the records: the line of an earlier shown
      record stands before the line of a later one. */
  lemma ServiceLinesOrdered(services: seq<Record>, unit: string, i: nat, j: nat)
    requires i < j < |services| && Shown(services[i]) && Shown(services[j])
    ensures var lines := ServiceLines(services, unit);
            exists a, b | 0 <= a < b < |lines| ::
              && lines[a] == Service(services[i].service, Round2(services[i].billing), unit)
              && lines[b] == Service(services[j].service, Round2(services[j].billing), unit)
  {
    assert services[..i + 1][..i] == services[..i];
    CountShownMonotone(services, i + 1, j);
    ServiceLineOf(services, unit, i);
    ServiceLineOf(services, unit, j);
    var lines := ServiceLines(services, unit);
    var a, b := CountShown(services[..i]), CountShown(services[..j]);
    assert 0 <= a < b < |lines|;
  }

  /** The shape of the message: the title with the rounded total and its
      unit, the account line, then one line per shown record. */
  lemma MessageShape(accountId: string, total: Metric, services: seq<Record>)
    ensures var lines := MessageLines(accountId, total, services);
            && |lines| == 2 + CountShown(services)
            && lines[0] == Title(Round2(total.amount), total.unit)
            && lines[1] == Account(accountId)
            && forall k | 2 <= k < |lines| ::
                 lines[k].Service? && lines[k].unit == total.unit && lines[k].amount != 0
  {
    var lines := MessageLines(accountId, total, services);
    ServiceLinesCount(services, total.unit);
    ServiceLinesShape(services, total.unit);
    forall k | 2 <= k < |lines|
      ensures lines[k].Service? && lines[k].unit == total.unit && lines[k].amount != 0
    {
      assert lines[k] in ServiceLines(services, total.unit);
    }
  }

  lemma ServiceTextOneLine(name: string, amount: int, unit: string)
    requires '\n' !in name && '\n' !in unit
    ensures '\n' !in Render(Service(name, amount, unit))
  {
  }

  /** Split at newlines, the message text gives back its rendered lines, one
      per line of the message, when the account id, the unit and the
      service names hold no newline. */
  lemma MessageText(accountId: string, total: Metric, services: seq<Record>)
    requires '\n' !in accountId && '\n' !in total.unit
    requires forall i | 0 <= i < |services| :: '\n' !in services[i].service
    ensures var texts := RenderAll(MessageLines(accountId, total, services));
            Split(Join(texts)) == texts && |texts| == 2 + CountShown(services)
  {
    var lines := MessageLines(accountId, total, services);
    var texts := RenderAll(lines);
    MessageShape(accountId, total, services);
    forall k | 0 <= k < |lines| ensures '\n' !in texts[k] {
      if k >= 2 {
        ServiceLineSource(services, total.unit, k - 2);
        var i :| 0 <= i < |services| && Shown(services[i]) && CountShown(services[..i]) == k - 2
                 && ServiceLines(services, total.unit)[k - 2]
                    == Service(services[i].service, Round2(services[i].billing), total.unit);
        assert lines[k] == Service(services[i].service, Round2(services[i].billing), total.unit);
        ServiceTextOneLine(services[i].service, Round2(services[i].billing), total.unit);
      } else if k == 1 {
        assert lines[k] == Account(accountId);
      } else {
        assert lines[k] == Title(Round2(total.amount), total.unit);
      }
    }
    SplitJoin(texts);
  }
}
