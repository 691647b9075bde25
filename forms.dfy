/** The subscriber's form: the fields it may write, the birth-date check,
    the agreement label with its link, the age warning under the birth
    date, and the label of each priced optional. */
module Forms {
  import opened Common
  import opened Models

  // ---------------------------------------------------------------- Meta.exclude

  /** What the subscriber fills in: every column of the subscription but
      the excluded event, user, state, wait_until and position. */
  datatype SubscriptionData = SubscriptionData(
    fullName: string, document: string, badge: string, email: string, phone: string,
    born: Date, optionals: set<int>, agreed: bool)

  /** `form.save()` on an instance: the form's fields are written, the
      excluded ones can never be. */
  function Apply(s: Subscription, d: SubscriptionData): (r: Subscription)
    ensures r.id == s.id && r.event == s.event && r.user == s.user && r.state == s.state &&
            r.waitUntil == s.waitUntil && r.position == s.position
    ensures r.fullName == d.fullName && r.document == d.document && r.badge == d.badge && r.email == d.email &&
            r.phone == d.phone && r.born == Some(d.born) && r.optionals == d.optionals && r.agreed == d.agreed
  {
    s.(fullName := d.fullName, document := d.document, badge := d.badge, email := d.email,
       phone := d.phone, born := Some(d.born), optionals := d.optionals, agreed := d.agreed)
  }

  /** Saving the form twice with the same data is saving it once. */
  lemma ApplyIdempotent(s: Subscription, d: SubscriptionData)
    ensures Apply(Apply(s, d), d) == Apply(s, d)
  {
  }

  // ---------------------------------------------------------------- clean_born

  const TooYoung := "too_young"
  const TooYoungText := "Must be born until %(date)s."

  /** `clean_born`: a birth date after the latest allowed one is refused
      with the `too_young` code; any other comes back unchanged. */
  function CleanBorn(born: Date, maxBorn: Date): (r: Result<Date>)
    ensures r.Ok? <==> DateLeq(born, maxBorn)
    ensures r.Ok? ==> r.value == born
    ensures r.Err? ==> r.error == ValidationError(TooYoung, TooYoungText)
  {
    if !DateLeq(born, maxBorn) then Err(ValidationError(TooYoung, TooYoungText)) else Ok(born)
  }

  /** A birth date the form accepts belongs to someone who is at least the
      event's minimum age when it starts. */
  lemma AcceptedBirthIsOldEnough(e: Event, today: Date, born: Date)
    requires e.minAge != 0 && MaxBorn(e, today).Ok?
    requires CleanBorn(born, MaxBorn(e, today).value).Ok?
    ensures AgeAtEvent(Some(born), e.startDate).value >= e.minAge
  {
    MaxBornMeansOldEnough(e, today, born);
  }

  // ---------------------------------------------------------------- _add_agreement_link

  /** The agreement label, "Read and agreed to [terms and conditions].",
      kept as its three parts around the brackets. */
  const AgreedBefore := "Read and agreed to "
  const AgreedWords := "terms and conditions"
  const AgreedAfter := "."
  const AgreedText := AgreedBefore + "[" + AgreedWords + "]" + AgreedAfter

  /** The opening tag of a link to `url`. */
  function Anchor(url: string): string
  {
    "<a href=\"" + url + "\">"
  }

  /** `_add_agreement_link`: with an agreement URL the bracketed words
      become a link to it (`[` opens the anchor, `]` closes it; the second
      replacement also reaches a `]` inside the URL); without one the
      brackets are deleted. */
  function AgreementLink(text: string, url: string): (r: string)
    ensures url == "" ==> r == Without(Without(text, '['), ']')
    ensures url != "" ==> ']' !in r && ('[' in r ==> '[' in url)
  {
    if url != "" then
      ReplaceAll(ReplaceAll(text, '[', Anchor(url)), ']', "</a>")
    else
      ReplaceByNothingFilters(text, '[');
      ReplaceByNothingFilters(ReplaceAll(text, '[', ""), ']');
      ReplaceAll(ReplaceAll(text, '[', ""), ']', "")
  }

  /** Replacing in a concatenation is replacing in each part. */
  lemma {:induction false} ReplaceAllAppend(a: string, b: string, c: char, with: string)
    ensures ReplaceAll(a + b, c, with) == ReplaceAll(a, c, with) + ReplaceAll(b, c, with)
  {
    if a == [] {
      assert a + b == b;
    } else {
      assert (a + b)[0] == a[0] && (a + b)[1..] == a[1..] + b;
      ReplaceAllAppend(a[1..], b, c, with);
    }
  }

  /** Replacing a character that does not occur changes nothing. */
  lemma {:induction false} ReplaceAllAbsent(s: string, c: char, with: string)
    requires c !in s
    ensures ReplaceAll(s, c, with) == s
  {
    if s != [] {
      assert s[0] != c && s == [s[0]] + s[1..];
      ReplaceAllAbsent(s[1..], c, with);
    }
  }

  /** Replacing the only occurrence of a character. */
  lemma ReplaceOnce(a: string, rest: string, c: char, with: string)
    requires c !in a && c !in rest
    ensures ReplaceAll(a + [c] + rest, c, with) == a + with + rest
  {
    ReplaceAllAppend(a + [c], rest, c, with);
    ReplaceAllAppend(a, [c], c, with);
    ReplaceAllAbsent(a, c, with);
    ReplaceAllAbsent(rest, c, with);
    assert [c][1..] == [];
  }

  /** The first replacement opens the anchor where the `[` was. */
  lemma OpenAnchor(a: string, b: string, c: string, open: string)
    requires '[' !in a && '[' !in b && '[' !in c
    ensures ReplaceAll(a + "[" + b + "]" + c, '[', open) == (a + open + b) + [']'] + c
  {
    assert a + "[" + b + "]" + c == a + ['['] + (b + "]" + c);
    ReplaceOnce(a, b + "]" + c, '[', open);
    assert a + open + (b + "]" + c) == (a + open + b) + [']'] + c;
  }

  /** With a URL free of brackets, a text with one bracketed part links
      exactly that part. */
  lemma LinkedBetween(a: string, b: string, c: string, url: string)
    requires url != "" && '[' !in url && ']' !in url
    requires '[' !in a && ']' !in a && '[' !in b && ']' !in b && '[' !in c && ']' !in c
    ensures AgreementLink(a + "[" + b + "]" + c, url) == a + Anchor(url) + b + "</a>" + c
  {
    var open := Anchor(url);
    OpenAnchor(a, b, c, open);
    var head := a + open + b;
    assert ']' !in head;
    ReplaceOnce(head, c, ']', "</a>");
  }

  /** The agreement label, with a URL free of brackets, links exactly the
      words "terms and conditions". */
  lemma AgreedLabelLinked(url: string)
    requires url != "" && '[' !in url && ']' !in url
    ensures AgreementLink(AgreedText, url) == AgreedBefore + Anchor(url) + AgreedWords + "</a>" + AgreedAfter
  {
    LinkedBetween(AgreedBefore, AgreedWords, AgreedAfter, url);
  }

  // ---------------------------------------------------------------- _add_age_warning

  const WriteInFormat := "Write in format:"

  /** The minimum-age sentence; `when` is the event's start as the
      locale's date format renders it, lowercased. */
  function AgeSentence(age: int, when: string): string
  {
    "You must be " + IntToString(age) + " or older at " + when + "."
  }

  /** `_add_age_warning`: the help text of the birth date (empty before)
      gets the age sentence only when the event has a minimum age, then
      always the format hint with every `%` taken out of the first input
      format, all joined by single spaces. `startsAt` is the event start
      as the date format renders it. */
  function AgeWarning(minAge: int, startsAt: string, inputFormat: string): (r: string)
    ensures minAge == 0 ==> r == WriteInFormat + " " + Without(inputFormat, '%')
    ensures minAge != 0 ==> r == AgeSentence(minAge, Lower(startsAt)) + " " + WriteInFormat + " " + Without(inputFormat, '%')
    ensures '%' !in r[|r| - |Without(inputFormat, '%')|..]
  {
    ReplaceByNothingFilters(inputFormat, '%');
    var hint := [WriteInFormat, ReplaceAll(inputFormat, '%', "")];
    assert Join(" ", hint) == WriteInFormat + " " + ReplaceAll(inputFormat, '%', "") by {
      assert hint[1..] == [ReplaceAll(inputFormat, '%', "")];
    }
    if minAge != 0 then
      var msg := [AgeSentence(minAge, Lower(startsAt))] + hint;
      assert msg[1..] == hint;
      Join(" ", msg)
    else
      Join(" ", hint)
  }

  // ---------------------------------------------------------------- label_from_instance

  /** A non-negative amount of cents as a two-place decimal: the units,
      a point, then exactly two digits. */
  function CentsText(c: nat): (r: string)
    ensures |r| >= 4 && r[|r| - 3] == '.'
    ensures forall i :: 0 <= i < |r| && i != |r| - 3 ==> IsDigit(r[i])
  {
    NatToString(c / 100) + "." + [DigitChar(c % 100 / 10), DigitChar(c % 10)]
  }

  /** A digit's character reads back as the digit. */
  lemma DigitCharValue(d: nat)
    requires d < 10
    ensures IsDigit(DigitChar(d)) && DigitValue(DigitChar(d)) == d
  {
  }

  /** `str()` of a price column (two decimal places), from its cents. */
  function PriceText(cents: int): string
  {
    if cents < 0 then "-" + CentsText(-cents) else CentsText(cents)
  }

  /** Two digit characters read back as the two-digit number. */
  lemma TwoDigitsValue(d1: nat, d2: nat)
    requires d1 < 10 && d2 < 10
    ensures DigitsValue([DigitChar(d1), DigitChar(d2)]) == d1 * 10 + d2
  {
    DigitCharValue(d1);
    DigitCharValue(d2);
    var t := [DigitChar(d1), DigitChar(d2)];
    assert t[..1] == [DigitChar(d1)] && t[..1][..0] == [];
    assert DigitsValue(t[..1]) == d1;
    assert DigitsValue(t) == DigitsValue(t[..1]) * 10 + DigitValue(t[1]);
  }

  /** The units before the point and the two digits after it read back as
      the amount. */
  lemma CentsReadBack(c: nat)
    ensures var r := CentsText(c);
      DigitsValue(r[..|r| - 3]) * 100 + DigitsValue(r[|r| - 2..]) == c
  {
    var r := CentsText(c);
    var units := NatToString(c / 100);
    var tail := [DigitChar(c % 100 / 10), DigitChar(c % 10)];
    assert r == units + "." + tail;
    assert r[..|r| - 3] == units;
    assert r[|r| - 2..] == tail;
    NatToStringRoundTrip(c / 100);
    TwoDigitsValue(c % 100 / 10, c % 10);
  }

  /** `label_from_instance`: the name with its price in reais, or marked
      free when the price is zero (a zero decimal is falsy). */
  function Label(o: Optional): (r: string)
    ensures StartsWith(r, o.name + " (")
  {
    if o.price != 0 then o.name + " (R$ " + PriceText(o.price) + ")"
    else o.name + " (grátis)"
  }

  /** A free optional is marked as such, and the label of a priced one
      shows a number that reads back as its price. */
  lemma LabelShowsPrice(o: Optional)
    ensures o.price == 0 ==> Label(o)[|o.name| + 2..] == "grátis)"
    ensures o.price > 0 ==>
      var t := Label(o)[|o.name| + 5..|Label(o)| - 1];
      t == CentsText(o.price) && DigitsValue(t[..|t| - 3]) * 100 + DigitsValue(t[|t| - 2..]) == o.price
  {
    if o.price > 0 {
      CentsReadBack(o.price);
    }
  }
}
