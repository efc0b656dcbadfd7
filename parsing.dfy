/**
 * Record-level lease validation of the file importer: whitespace trimming,
 * the case-insensitive frequency check, `parseRecordToLease` (one CSV or
 * spreadsheet row in the fixed column order ID, StartDate, EndDate,
 * PaymentAmount, PaymentFrequency, DiscountRate), `parseExtraPayments`
 * ("DATE:AMOUNT;DATE:AMOUNT"), and the frequency aliases and percentage
 * rule of the header-mapped row parser.
 *
 * Date parsing (`time.Parse` with layout "2006-01-02") and number parsing
 * (`strconv.ParseFloat`) are parameters: partial functions that yield `None`
 * where Go returns an error.
 */
module Parsing {
  import opened Results
  import opened Dates
  import opened Leases

  // ---------------------------------------------------------------------------
  // Characters and strings
  // ---------------------------------------------------------------------------

  /** `unicode.IsSpace`: the Latin-1 white space characters and the Unicode `White_Space` set above them. */
  predicate IsSpace(c: char) {
    var n := c as int;
    n == 0x09 || n == 0x0A || n == 0x0B || n == 0x0C || n == 0x0D || n == 0x20
    || n == 0x85 || n == 0xA0 || n == 0x1680 || (0x2000 <= n <= 0x200A)
    || n == 0x2028 || n == 0x2029 || n == 0x202F || n == 0x205F || n == 0x3000
  }

  /** Leading white space removed. */
  function TrimLeft(s: string): string {
    if s != [] && IsSpace(s[0]) then TrimLeft(s[1..]) else s
  }

  /** Trailing white space removed. */
  function TrimRight(s: string): string {
    if s != [] && IsSpace(s[|s| - 1]) then TrimRight(s[..|s| - 1]) else s
  }

  /** `strings.TrimSpace`. */
  function TrimSpace(s: string): string {
    TrimRight(TrimLeft(s))
  }

  /** `TrimLeft` gives the longest suffix that does not start with a space. */
  lemma {:induction false} TrimLeftMeaning(s: string)
    ensures var r := TrimLeft(s);
            && |r| <= |s| && r == s[|s| - |r|..]
            && (forall k :: 0 <= k < |s| - |r| ==> IsSpace(s[k]))
            && (r == [] || !IsSpace(r[0]))
    decreases |s|
  {
    if s != [] && IsSpace(s[0]) {
      var t := s[1..];
      TrimLeftMeaning(t);
      var r := TrimLeft(t);
      assert t[|t| - |r|..] == s[|s| - |r|..];
      forall k | 0 <= k < |s| - |r|
        ensures IsSpace(s[k])
      {
        if k > 0 {
          assert s[k] == t[k - 1];
        }
      }
    }
  }

  /** `TrimRight` gives the longest prefix that does not end with a space. */
  lemma {:induction false} TrimRightMeaning(s: string)
    ensures var r := TrimRight(s);
            && |r| <= |s| && r == s[..|r|]
            && (forall k :: |r| <= k < |s| ==> IsSpace(s[k]))
            && (r == [] || !IsSpace(r[|r| - 1]))
    decreases |s|
  {
    if s != [] && IsSpace(s[|s| - 1]) {
      var t := s[..|s| - 1];
      TrimRightMeaning(t);
      var r := TrimRight(t);
      assert t[..|r|] == s[..|r|];
      forall k | |r| <= k < |s|
        ensures IsSpace(s[k])
      {
        if k < |s| - 1 {
          assert s[k] == t[k];
        }
      }
    }
  }

  /** A string with no white space at either end. */
  predicate Trimmed(s: string) {
    s == [] || (!IsSpace(s[0]) && !IsSpace(s[|s| - 1]))
  }

  /** `TrimSpace` leaves no white space at either end. */
  lemma TrimSpaceIsTrimmed(s: string)
    ensures Trimmed(TrimSpace(s))
  {
    var l := TrimLeft(s);
    TrimLeftMeaning(s);
    TrimRightMeaning(l);
    var r := TrimRight(l);
    if r != [] {
      assert r[0] == l[0];
    }
  }

  /** A trimmed string is its own `TrimSpace`. */
  lemma TrimSpaceOfTrimmed(s: string)
    requires Trimmed(s)
    ensures TrimSpace(s) == s
  {
    assert TrimLeft(s) == s;
  }

  /** Trimming twice is trimming once. */
  lemma TrimSpaceIdempotent(s: string)
    ensures TrimSpace(TrimSpace(s)) == TrimSpace(s)
  {
    TrimSpaceIsTrimmed(s);
    TrimSpaceOfTrimmed(TrimSpace(s));
  }

  predicate IsUpperAscii(c: char) {
    'A' <= c <= 'Z'
  }

  predicate IsLowerAscii(c: char) {
    'a' <= c <= 'z'
  }

  /** `unicode.ToLower` on ASCII letters; every other character is kept. */
  function LowerChar(c: char): (r: char)
    ensures !IsUpperAscii(r)
  {
    if IsUpperAscii(c) then (c as int + 32) as char else c
  }

  /** `unicode.ToTitle` on ASCII letters; every other character is kept. */
  function TitleChar(c: char): char {
    if IsLowerAscii(c) then (c as int - 32) as char else c
  }

  /** `strings.ToLower`. */
  function ToLower(s: string): string {
    seq(|s|, k requires 0 <= k < |s| => LowerChar(s[k]))
  }

  /** `strings.ToLower` keeps a string without upper-case letters. */
  lemma LowerCaseIsKept(s: string)
    requires forall k :: 0 <= k < |s| ==> !IsUpperAscii(s[k])
    ensures ToLower(s) == s
  {
  }

  /** The separators of `strings.Title`: anything but an ASCII letter, digit or `_`, or a non-ASCII space. */
  predicate IsSeparator(c: char) {
    if c as int <= 0x7F then
      !(('0' <= c <= '9') || IsLowerAscii(c) || IsUpperAscii(c) || c == '_')
    else IsSpace(c)
  }

  /** `strings.Title`: every character that follows a separator (or starts the string) is title-cased. */
  function Title(s: string): string {
    TitleAfter(s, ' ')
  }

  function TitleAfter(s: string, prev: char): (r: string)
    ensures |r| == |s|
    ensures forall k :: 0 <= k < |s| ==> r[k] == s[k] || r[k] == TitleChar(s[k])
    ensures s != [] ==> r[0] == if IsSeparator(prev) then TitleChar(s[0]) else s[0]
  {
    if s == [] then []
    else [if IsSeparator(prev) then TitleChar(s[0]) else s[0]] + TitleAfter(s[1..], s[0])
  }

  /**
   * `strings.Title` of a lower-cased string is `w` only if that string is `w`
   * lower-cased, for any `w` that is upper-case at most in its first letter.
   */
  lemma TitleOfLower(y: string, w: string)
    requires forall k :: 0 <= k < |y| ==> !IsUpperAscii(y[k])
    requires forall k :: 1 <= k < |w| ==> !IsUpperAscii(w[k])
    requires Title(y) == w
    ensures y == ToLower(w)
  {
    var t := TitleAfter(y, ' ');
    forall k | 0 <= k < |y|
      ensures y[k] == LowerChar(w[k])
    {
      assert t[k] == y[k] || t[k] == TitleChar(y[k]);
    }
  }

  // ---------------------------------------------------------------------------
  // Frequencies
  // ---------------------------------------------------------------------------

  /** The three frequency names the engine supports. */
  predicate IsCanonicalFrequency(s: string) {
    s == "Monthly" || s == "Quarterly" || s == "Annually"
  }

  /**
   * The record parser's frequency rule: a canonical name is taken as it is;
   * otherwise the field is lower-cased and title-cased, and accepted when that
   * gives a canonical name.
   */
  function RecordFrequency(field: string): Option<Frequency> {
    if IsCanonicalFrequency(field) then Some(FrequencyOf(field))
    else
      var titled := Title(ToLower(field));
      if IsCanonicalFrequency(titled) then Some(FrequencyOf(titled)) else None
  }

  /** Inside a word of lower-case letters `strings.Title` changes nothing. */
  lemma {:induction false} TitleInsideWord(s: string, prev: char)
    requires !IsSeparator(prev)
    requires forall k :: 0 <= k < |s| ==> IsLowerAscii(s[k])
    ensures TitleAfter(s, prev) == s
    decreases |s|
  {
    if s != [] {
      TitleInsideWord(s[1..], s[0]);
    }
  }

  /** `strings.Title` of a lower-case word capitalises its first letter only. */
  lemma TitleOfWord(w: string)
    requires w != []
    requires forall k :: 0 <= k < |w| ==> IsLowerAscii(w[k])
    ensures Title(w) == [TitleChar(w[0])] + w[1..]
  {
    TitleInsideWord(w[1..], w[0]);
  }

  /** A capitalised word of ASCII letters lower-cases to its lower-case spelling, which title-cases back to it. */
  lemma CasesOfWord(w: string, lower: string)
    requires |w| == |lower| > 0
    requires IsUpperAscii(w[0]) && lower[0] == LowerChar(w[0])
    requires forall k :: 1 <= k < |w| ==> IsLowerAscii(w[k]) && lower[k] == w[k]
    ensures ToLower(w) == lower
    ensures Title(lower) == w
  {
    assert forall k :: 0 <= k < |w| ==> ToLower(w)[k] == lower[k];
    TitleOfWord(lower);
  }

  /** Each canonical name lower-cases to its lower-case spelling, which title-cases back to it. */
  lemma LowerOfCanonical()
    ensures ToLower("Monthly") == "monthly" && Title("monthly") == "Monthly"
    ensures ToLower("Quarterly") == "quarterly" && Title("quarterly") == "Quarterly"
    ensures ToLower("Annually") == "annually" && Title("annually") == "Annually"
  {
    CasesOfWord("Monthly", "monthly");
    CasesOfWord("Quarterly", "quarterly");
    CasesOfWord("Annually", "annually");
  }

  /** The canonical names are upper-case in their first letter only. */
  lemma CanonicalTailIsLower(w: string)
    requires IsCanonicalFrequency(w)
    ensures forall k :: 1 <= k < |w| ==> !IsUpperAscii(w[k])
  {
    if w == "Monthly" {
    } else if w == "Quarterly" {
    } else {
    }
  }

  /**
   * The record parser accepts a frequency exactly when it spells one of the
   * three names in any mix of letter cases, and stores the canonical name.
   */
  lemma RecordFrequencyIsCaseInsensitive(field: string)
    ensures RecordFrequency(field).Some? <==>
              ToLower(field) == "monthly" || ToLower(field) == "quarterly" || ToLower(field) == "annually"
    ensures ToLower(field) == "monthly" ==> RecordFrequency(field) == Some(Monthly)
    ensures ToLower(field) == "quarterly" ==> RecordFrequency(field) == Some(Quarterly)
    ensures ToLower(field) == "annually" ==> RecordFrequency(field) == Some(Annually)
  {
    LowerOfCanonical();
    var y := ToLower(field);
    var titled := Title(y);
    if !IsCanonicalFrequency(field) && IsCanonicalFrequency(titled) {
      CanonicalTailIsLower(titled);
      TitleOfLower(y, titled);
    }
  }

  lemma RecordFrequencyExamples()
    ensures RecordFrequency("monthly") == Some(Monthly)
    ensures RecordFrequency("Weekly") == None
  {
    LowerCaseIsKept("monthly");
    RecordFrequencyIsCaseInsensitive("monthly");
    RecordFrequencyIsCaseInsensitive("Weekly");
    assert ToLower("Weekly")[0] == 'w';
  }

  /** The aliases of the header-mapped row parser, matched after trimming and lower-casing. */
  function FrequencyAlias(field: string): (r: Result<Frequency, string>)
  {
    var f := ToLower(TrimSpace(field));
    if f == "monthly" || f == "month" || f == "m" then Ok(Monthly)
    else if f == "quarterly" || f == "quarter" || f == "q" then Ok(Quarterly)
    else if f == "annually" || f == "annual" || f == "yearly" || f == "year" || f == "a" || f == "y" then Ok(Annually)
    else Err(f)
  }

  /**
   * Every frequency the record parser accepts, the row parser accepts too,
   * with the same meaning: the row parser's aliases extend the record rule.
   */
  lemma AliasesExtendRecordRule(field: string)
    requires RecordFrequency(TrimSpace(field)).Some?
    ensures FrequencyAlias(field) == Ok(RecordFrequency(TrimSpace(field)).value)
  {
    RecordFrequencyIsCaseInsensitive(TrimSpace(field));
  }

  /** The row parser reads every supported frequency's own name back as that frequency. */
  lemma AliasOfName(f: Frequency)
    requires !f.Other?
    ensures FrequencyAlias(FrequencyName(f)) == Ok(f)
  {
    TrimSpaceOfTrimmed(FrequencyName(f));
    LowerOfCanonical();
  }

  /** The row parser's rate rule: a rate above 1 is read as a percentage. */
  function PercentToDecimal(rate: real): (r: real)
    ensures rate <= 1.0 ==> r == rate
    ensures rate > 1.0 ==> r * 100.0 == rate
  {
    if rate > 1.0 then rate / 100.0 else rate
  }

  /**
   * A rate above one percent means the same whether it is entered as a
   * decimal or as a percentage, and every rate up to 100 ends at most 1.
   */
  lemma PercentAndDecimalAgree(d: real)
    requires 0.01 < d <= 1.0
    ensures PercentToDecimal(d * 100.0) == d
    ensures PercentToDecimal(d) == d
  {
  }

  lemma PercentToDecimalBounds(rate: real)
    requires 0.0 < rate <= 100.0
    ensures 0.0 < PercentToDecimal(rate) <= 1.0
  {
  }

  // ---------------------------------------------------------------------------
  // One record
  // ---------------------------------------------------------------------------

  datatype RecordError =
    | InsufficientColumns(got: int)
    | MissingField(name: string)
    | InvalidStartDate(text: string)
    | InvalidEndDate(text: string)
    | InvalidPaymentAmount(text: string)
    | InvalidPaymentFrequency(text: string)
    | InvalidDiscountRate(text: string)
    | EndDateBeforeStart
    | PaymentAmountNotPositive
    | DiscountRateNotPositive

  /** The columns a record must have. */
  const ExpectedColumns: nat := 6

  /** Every field of a record trimmed. */
  function TrimAll(fields: seq<string>): (r: seq<string>)
    ensures |r| == |fields|
  {
    seq(|fields|, k requires 0 <= k < |fields| => TrimSpace(fields[k]))
  }

  /** A lease with only the record's columns set; the other fields keep Go's zero values. */
  function RecordLease(id: string, start: Date, end: Date, pmt: real, freq: Frequency, rate: real): Lease {
    Lease(id, "", "", start, end, pmt, freq, rate, 0.0, 0.0, [])
  }

  /**
   * What `parseRecordToLease` makes of already trimmed fields: each column is
   * checked for presence and then parsed, left to right, and the first
   * failure is the error; the parsed dates must not be reversed and the
   * amounts must be positive.
   */
  function RecordToLease(f: seq<string>, parseDate: string -> Option<Date>, parseFloat: string -> Option<real>)
    : Result<Lease, RecordError>
    requires |f| >= ExpectedColumns
  {
    if f[0] == "" then Err(MissingField("ID"))
    else if f[1] == "" then Err(MissingField("StartDate"))
    else if parseDate(f[1]).None? then Err(InvalidStartDate(f[1]))
    else if f[2] == "" then Err(MissingField("EndDate"))
    else if parseDate(f[2]).None? then Err(InvalidEndDate(f[2]))
    else if f[3] == "" then Err(MissingField("PaymentAmount"))
    else if parseFloat(f[3]).None? then Err(InvalidPaymentAmount(f[3]))
    else if f[4] == "" then Err(MissingField("PaymentFrequency"))
    else if RecordFrequency(f[4]).None? then Err(InvalidPaymentFrequency(f[4]))
    else if f[5] == "" then Err(MissingField("DiscountRate"))
    else if parseFloat(f[5]).None? then Err(InvalidDiscountRate(f[5]))
    else
      var start, end := parseDate(f[1]).value, parseDate(f[2]).value;
      var pmt, rate := parseFloat(f[3]).value, parseFloat(f[5]).value;
      if Before(end, start) then Err(EndDateBeforeStart)
      else if pmt <= 0.0 then Err(PaymentAmountNotPositive)
      else if rate <= 0.0 then Err(DiscountRateNotPositive)
      else Ok(RecordLease(f[0], start, end, pmt, RecordFrequency(f[4]).value, rate))
  }

  /**
   * A record that parses gives a lease with a non-empty ID, a supported
   * frequency, an end not before its start, and positive payment and rate,
   * each column read from its own trimmed field.
   */
  lemma RecordLeaseIsValid(f: seq<string>, parseDate: string -> Option<Date>, parseFloat: string -> Option<real>)
    requires |f| >= ExpectedColumns
    requires RecordToLease(f, parseDate, parseFloat).Ok?
    ensures var l := RecordToLease(f, parseDate, parseFloat).value;
            && l.id == f[0] && l.id != ""
            && Some(l.startDate) == parseDate(f[1])
            && Some(l.endDate) == parseDate(f[2])
            && Some(l.paymentAmount) == parseFloat(f[3])
            && Some(l.discountRate) == parseFloat(f[5])
            && Some(l.paymentFrequency) == RecordFrequency(f[4])
            && !l.paymentFrequency.Other?
            && !Before(l.endDate, l.startDate)
            && l.paymentAmount > 0.0 && l.discountRate > 0.0
            && l.extraPayments == []
  {
  }

  /**
   * The missing-field checks run in column order: the first empty column is
   * reported, provided every column before it was present and parsed.
   */
  lemma MissingFieldsInOrder(f: seq<string>, parseDate: string -> Option<Date>, parseFloat: string -> Option<real>)
    requires |f| >= ExpectedColumns
    ensures f[0] == "" ==> RecordToLease(f, parseDate, parseFloat) == Err(MissingField("ID"))
    ensures f[0] != "" && f[1] == "" ==> RecordToLease(f, parseDate, parseFloat) == Err(MissingField("StartDate"))
    ensures f[0] != "" && f[1] != "" && parseDate(f[1]).Some? && f[2] == "" ==>
              RecordToLease(f, parseDate, parseFloat) == Err(MissingField("EndDate"))
    ensures f[0] != "" && f[1] != "" && parseDate(f[1]).Some? && f[2] != "" && parseDate(f[2]).Some?
            && f[3] == "" ==>
              RecordToLease(f, parseDate, parseFloat) == Err(MissingField("PaymentAmount"))
    ensures f[0] != "" && f[1] != "" && parseDate(f[1]).Some? && f[2] != "" && parseDate(f[2]).Some?
            && f[3] != "" && parseFloat(f[3]).Some? && f[4] == "" ==>
              RecordToLease(f, parseDate, parseFloat) == Err(MissingField("PaymentFrequency"))
    ensures f[0] != "" && f[1] != "" && parseDate(f[1]).Some? && f[2] != "" && parseDate(f[2]).Some?
            && f[3] != "" && parseFloat(f[3]).Some? && f[4] != "" && RecordFrequency(f[4]).Some?
            && f[5] == "" ==>
              RecordToLease(f, parseDate, parseFloat) == Err(MissingField("DiscountRate"))
  {
  }

  /**
   * `parseRecordToLease`: a short record is refused untouched; otherwise every
   * field of the record is trimmed in place, and the trimmed fields are
   * parsed column by column.
   */
  method ParseRecordToLease(record: array<string>, parseDate: string -> Option<Date>,
                            parseFloat: string -> Option<real>)
      returns (r: Result<Lease, RecordError>)
    modifies record
    ensures record.Length < ExpectedColumns ==>
              r == Err(InsufficientColumns(record.Length)) && record[..] == old(record[..])
    ensures record.Length >= ExpectedColumns ==>
              record[..] == TrimAll(old(record[..])) && r == RecordToLease(record[..], parseDate, parseFloat)
  {
    if record.Length < ExpectedColumns {
      return Err(InsufficientColumns(record.Length));
    }
    TrimInPlace(record);

    var id := record[0];
    if id == "" {
      return Err(MissingField("ID"));
    }
    if record[1] == "" {
      return Err(MissingField("StartDate"));
    }
    var start := parseDate(record[1]);
    if start.None? {
      return Err(InvalidStartDate(record[1]));
    }
    if record[2] == "" {
      return Err(MissingField("EndDate"));
    }
    var end := parseDate(record[2]);
    if end.None? {
      return Err(InvalidEndDate(record[2]));
    }
    if record[3] == "" {
      return Err(MissingField("PaymentAmount"));
    }
    var pmt := parseFloat(record[3]);
    if pmt.None? {
      return Err(InvalidPaymentAmount(record[3]));
    }
    if record[4] == "" {
      return Err(MissingField("PaymentFrequency"));
    }
    var freq := RecordFrequency(record[4]);
    if freq.None? {
      return Err(InvalidPaymentFrequency(record[4]));
    }
    if record[5] == "" {
      return Err(MissingField("DiscountRate"));
    }
    var rate := parseFloat(record[5]);
    if rate.None? {
      return Err(InvalidDiscountRate(record[5]));
    }
    if Before(end.value, start.value) {
      return Err(EndDateBeforeStart);
    }
    if pmt.value <= 0.0 {
      return Err(PaymentAmountNotPositive);
    }
    if rate.value <= 0.0 {
      return Err(DiscountRateNotPositive);
    }
    return Ok(RecordLease(id, start.value, end.value, pmt.value, freq.value, rate.value));
  }

  /** The trimming loop: each element of the array is replaced by its `TrimSpace`. */
  method TrimInPlace(record: array<string>)
    modifies record
    ensures record[..] == TrimAll(old(record[..]))
  {
    ghost var original := record[..];
    var i := 0;
    while i < record.Length
      invariant 0 <= i <= record.Length
      invariant forall k :: 0 <= k < i ==> record[k] == TrimSpace(original[k])
      invariant forall k :: i <= k < record.Length ==> record[k] == original[k]
    {
      record[i] := TrimSpace(record[i]);
      i := i + 1;
    }
  }

  // ---------------------------------------------------------------------------
  // Extra payments
  // ---------------------------------------------------------------------------

  /** `strings.Split` on a one-character separator: the pieces between separators, at least one. */
  function Split(s: string, sep: char): (r: seq<string>)
    ensures |r| >= 1
    ensures forall k :: 0 <= k < |r| ==> sep !in r[k]
    decreases |s|
  {
    if s == [] then [""]
    else
      var rest := Split(s[1..], sep);
      if s[0] == sep then [""] + rest
      else [[s[0]] + rest[0]] + rest[1..]
  }

  /** The pieces joined back with the separator. */
  function Join(pieces: seq<string>, sep: char): string
    requires |pieces| >= 1
  {
    if |pieces| == 1 then pieces[0] else pieces[0] + [sep] + Join(pieces[1..], sep)
  }

  /** Splitting loses nothing: joining the pieces with the separator gives the string back. */
  lemma {:induction false} JoinSplit(s: string, sep: char)
    ensures Join(Split(s, sep), sep) == s
    decreases |s|
  {
    if s != [] {
      var rest := Split(s[1..], sep);
      JoinSplit(s[1..], sep);
      if s[0] == sep {
        assert Split(s, sep)[1..] == rest;
      } else {
        var r := Split(s, sep);
        assert r[0] == [s[0]] + rest[0];
        if |rest| == 1 {
        } else {
          assert r[1..] == rest[1..];
          assert Join(r, sep) == [s[0]] + rest[0] + [sep] + Join(rest[1..], sep);
        }
      }
    }
  }

  datatype ExtraPaymentError =
    | InvalidFormat(pair: string)
    | InvalidDate(text: string)
    | InvalidAmount(text: string)

  /** `parseDateValue`: trim, then parse with the date layout. */
  function ParseDateValue(parseDate: string -> Option<Date>, value: string): Option<Date> {
    parseDate(TrimSpace(value))
  }

  /** `parseFloatValue`: trim, then parse as a number. */
  function ParseFloatValue(parseFloat: string -> Option<real>, value: string): Option<real> {
    parseFloat(TrimSpace(value))
  }

  /** One non-empty "DATE:AMOUNT" segment. */
  function ParsePair(pair: string, parseDate: string -> Option<Date>, parseFloat: string -> Option<real>)
    : Result<ExtraPayment, ExtraPaymentError>
  {
    var parts := Split(pair, ':');
    if |parts| != 2 then Err(InvalidFormat(pair))
    else
      var dateStr, amountStr := TrimSpace(parts[0]), TrimSpace(parts[1]);
      match ParseDateValue(parseDate, dateStr)
      case None => Err(InvalidDate(TrimSpace(dateStr)))
      case Some(date) =>
        match ParseFloatValue(parseFloat, amountStr)
        case None => Err(InvalidAmount(TrimSpace(amountStr)))
        case Some(amount) => Ok(ExtraPayment(date, amount))
  }

  /** The parser of one segment, as a function value. */
  function PairParser(parseDate: string -> Option<Date>, parseFloat: string -> Option<real>)
    : string -> Result<ExtraPayment, ExtraPaymentError>
  {
    pair => ParsePair(pair, parseDate, parseFloat)
  }

  /**
   * The segment loop over the first `k` segments: empty segments are skipped,
   * the first bad segment is the error, and the good ones are kept in order.
   */
  function PairsToPayments(pairs: seq<string>, k: nat, parsePair: string -> Result<ExtraPayment, ExtraPaymentError>)
    : Result<seq<ExtraPayment>, ExtraPaymentError>
    requires k <= |pairs|
  {
    if k == 0 then Ok([])
    else
      match PairsToPayments(pairs, k - 1, parsePair)
      case Err(e) => Err(e)
      case Ok(done) =>
        if pairs[k - 1] == "" then Ok(done)
        else
          match parsePair(pairs[k - 1])
          case Err(e) => Err(e)
          case Ok(p) => Ok(done + [p])
  }

  /** `parseExtraPayments`: nothing for an empty input, otherwise its ";" segments in order. */
  function ExtraPayments(input: string, parseDate: string -> Option<Date>, parseFloat: string -> Option<real>)
    : Result<seq<ExtraPayment>, ExtraPaymentError>
  {
    if input == "" then Ok([])
    else
      var pairs := Split(input, ';');
      PairsToPayments(pairs, |pairs|, PairParser(parseDate, parseFloat))
  }

  /** The number of non-empty segments among the first `k`. */
  function NonEmptyCount(pairs: seq<string>, k: nat): nat
    requires k <= |pairs|
  {
    if k == 0 then 0 else NonEmptyCount(pairs, k - 1) + (if pairs[k - 1] == "" then 0 else 1)
  }

  /**
   * On success there is one payment per non-empty segment, the last one is
   * the last non-empty segment's, and every non-empty segment parses.
   */
  lemma {:induction false} PairsToPaymentsCount(pairs: seq<string>, k: nat,
                                                parsePair: string -> Result<ExtraPayment, ExtraPaymentError>)
    requires k <= |pairs|
    requires PairsToPayments(pairs, k, parsePair).Ok?
    ensures |PairsToPayments(pairs, k, parsePair).value| == NonEmptyCount(pairs, k)
    ensures forall j :: 0 <= j < k && pairs[j] != "" ==> parsePair(pairs[j]).Ok?
    ensures k > 0 && pairs[k - 1] != "" ==>
              PairsToPayments(pairs, k, parsePair).value ==
              PairsToPayments(pairs, k - 1, parsePair).value + [parsePair(pairs[k - 1]).value]
  {
    if k > 0 {
      PairsToPaymentsCount(pairs, k - 1, parsePair);
    }
  }

  /** A segment that does not parse makes the whole loop fail. */
  lemma {:induction false} BadSegmentFails(pairs: seq<string>, k: nat, j: nat,
                                           parsePair: string -> Result<ExtraPayment, ExtraPaymentError>)
    requires j < k <= |pairs|
    requires pairs[j] != "" && parsePair(pairs[j]).Err?
    ensures PairsToPayments(pairs, k, parsePair).Err?
  {
    if j < k - 1 {
      BadSegmentFails(pairs, k - 1, j, parsePair);
    }
  }

  /** Once the segment loop has failed, later segments leave the error as it is. */
  lemma {:induction false} FailureSticks(pairs: seq<string>, k: nat,
                                         parsePair: string -> Result<ExtraPayment, ExtraPaymentError>)
    requires k <= |pairs|
    requires PairsToPayments(pairs, k, parsePair).Err?
    ensures PairsToPayments(pairs, |pairs|, parsePair) == PairsToPayments(pairs, k, parsePair)
    decreases |pairs| - k
  {
    if k < |pairs| {
      FailureSticks(pairs, k + 1, parsePair);
    }
  }

  /**
   * The extra payments of a successful parse: one per non-empty ";" segment,
   * and no segment that is not exactly one "DATE:AMOUNT" pair.
   */
  lemma ExtraPaymentsCount(input: string, parseDate: string -> Option<Date>, parseFloat: string -> Option<real>)
    requires ExtraPayments(input, parseDate, parseFloat).Ok?
    ensures var pairs := Split(input, ';');
            && |ExtraPayments(input, parseDate, parseFloat).value| == NonEmptyCount(pairs, |pairs|)
            && forall j :: 0 <= j < |pairs| && pairs[j] != "" ==> |Split(pairs[j], ':')| == 2
  {
    var pairs := Split(input, ';');
    if input != "" {
      var pp := PairParser(parseDate, parseFloat);
      PairsToPaymentsCount(pairs, |pairs|, pp);
      forall j | 0 <= j < |pairs| && pairs[j] != ""
        ensures |Split(pairs[j], ':')| == 2
      {
        assert pp(pairs[j]).Ok?;
      }
    } else {
      assert pairs == [""];
    }
  }

  /** A segment that is not exactly one "DATE:AMOUNT" pair rejects the whole input with that segment. */
  lemma MalformedSegmentFails(input: string, j: nat, parseDate: string -> Option<Date>,
                              parseFloat: string -> Option<real>)
    requires j < |Split(input, ';')|
    requires Split(input, ';')[j] != "" && |Split(Split(input, ';')[j], ':')| != 2
    ensures ExtraPayments(input, parseDate, parseFloat).Err?
  {
    var pairs := Split(input, ';');
    if input == "" {
      assert false;
    } else {
      BadSegmentFails(pairs, |pairs|, j, PairParser(parseDate, parseFloat));
    }
  }

  /** The body of the segment loop: split at ":", trim both halves, parse the date and then the amount. */
  method ParseSegment(pair: string, parseDate: string -> Option<Date>, parseFloat: string -> Option<real>)
      returns (r: Result<ExtraPayment, ExtraPaymentError>)
    ensures r == ParsePair(pair, parseDate, parseFloat)
  {
    var parts := Split(pair, ':');
    if |parts| != 2 {
      return Err(InvalidFormat(pair));
    }
    var dateStr, amountStr := TrimSpace(parts[0]), TrimSpace(parts[1]);
    var date := ParseDateValue(parseDate, dateStr);
    if date.None? {
      return Err(InvalidDate(TrimSpace(dateStr)));
    }
    var amount := ParseFloatValue(parseFloat, amountStr);
    if amount.None? {
      return Err(InvalidAmount(TrimSpace(amountStr)));
    }
    return Ok(ExtraPayment(date.value, amount.value));
  }

  /** The parsing loop, appending each good payment as it goes. */
  method ParseExtraPayments(input: string, parseDate: string -> Option<Date>, parseFloat: string -> Option<real>)
      returns (r: Result<seq<ExtraPayment>, ExtraPaymentError>)
    ensures r == ExtraPayments(input, parseDate, parseFloat)
  {
    if input == "" {
      return Ok([]);
    }
    ghost var pp := PairParser(parseDate, parseFloat);
    var extraPayments: seq<ExtraPayment> := [];
    var pairs := Split(input, ';');
    var i := 0;
    while i < |pairs|
      invariant 0 <= i <= |pairs|
      invariant PairsToPayments(pairs, i, pp) == Ok(extraPayments)
    {
      var pair := pairs[i];
      if pair != "" {
        var parsed := ParseSegment(pair, parseDate, parseFloat);
        assert pp(pair) == parsed;
        if parsed.Err? {
          FailureSticks(pairs, i + 1, pp);
          return Err(parsed.error);
        }
        extraPayments := extraPayments + [parsed.value];
      }
      i := i + 1;
    }
    return Ok(extraPayments);
  }

  /** The date and amount of a segment are trimmed once before parsing; the second trim changes nothing. */
  lemma PairTrimsOnce(pair: string, parseDate: string -> Option<Date>, parseFloat: string -> Option<real>)
    requires |Split(pair, ':')| == 2
    ensures var parts := Split(pair, ':');
            ParsePair(pair, parseDate, parseFloat).Ok? <==>
              parseDate(TrimSpace(parts[0])).Some? && parseFloat(TrimSpace(parts[1])).Some?
  {
    var parts := Split(pair, ':');
    TrimSpaceIdempotent(parts[0]);
    TrimSpaceIdempotent(parts[1]);
  }
}
