/** Rows of the `notification_status` table and the rule that aggregates a row's channel
    statuses into its overall status, for the four implementations that differ in it. */
module Statuses {

  type Id = string

  const PENDING := "PENDING"
  const PROCESSING := "PROCESSING"
  const COMPLETED := "COMPLETED"
  const FAILED := "FAILED"
  const ENQUEUED := "ENQUEUED"
  const PARTIAL_FAILURE := "PARTIAL_FAILURE"

  datatype Option<+T> = None | Some(value: T)

  datatype Row = Row(status: string, channels: map<string, string>)

  /** Which implementation is running. They share the aggregation rule and differ in how two
      status strings are compared. */
  datatype Dialect = TypeScript | Rust | Go | Java

  function LowerChar(c: char): char {
    if 'A' <= c <= 'Z' then (c as int + 32) as char else c
  }

  function UpperChar(c: char): char {
    if 'a' <= c <= 'z' then (c as int - 32) as char else c
  }

  function Upper(s: string): string {
    seq(|s|, i requires 0 <= i < |s| => UpperChar(s[i]))
  }

  /** Go's `strings.EqualFold` uses simple case folding: besides the ASCII pairs, only the
      Kelvin sign and the long s fold to an ASCII letter. */
  function GoFold(c: char): char {
    if c == '\U{212A}' then 'k' else if c == '\U{017F}' then 's' else LowerChar(c)
  }

  /** Java's `equalsIgnoreCase` compares the lower case of the upper case of each character.
      That also sends the dotted capital I and the dotless small i to an ASCII letter. */
  function JavaFold(c: char): char {
    if DottedOrDotless(c) then 'i' else GoFold(c)
  }

  predicate DottedOrDotless(c: char) {
    c == '\U{0130}' || c == '\U{0131}'
  }

  predicate EqualBy(fold: char -> char, s: string, word: string) {
    |s| == |word| && forall i :: 0 <= i < |s| ==> fold(s[i]) == fold(word[i])
  }

  /** Whether dialect `d` takes the stored string `s` for the status `word`. */
  predicate Is(d: Dialect, s: string, word: string) {
    match d
    case TypeScript => s == word
    case Rust => s == word
    case Go => EqualBy(GoFold, s, word)
    case Java => EqualBy(JavaFold, s, word)
  }

  predicate AllCompleted(d: Dialect, m: map<string, string>) {
    forall c :: c in m ==> Is(d, m[c], COMPLETED)
  }

  predicate AnyFailed(d: Dialect, m: map<string, string>) {
    exists c :: c in m && Is(d, m[c], FAILED)
  }

  /** The overall status of a channel map. */
  function Agg(d: Dialect, m: map<string, string>): string {
    if AllCompleted(d, m) then COMPLETED
    else if AnyFailed(d, m) then PARTIAL_FAILURE
    else PROCESSING
  }

  /** The row written when a notification is created. */
  function Initial(channels: set<string>): Row {
    Row(ENQUEUED, map c | c in channels :: PENDING)
  }

  function ChannelSet(channels: seq<string>): set<string> {
    set c | c in channels
  }

  type Aggregator = map<string, string> -> string

  function AggBy(d: Dialect): Aggregator {
    m => Agg(d, m)
  }

  /** The row a status update writes back: one channel set, the overall status re-aggregated. */
  function Touch(agg: Aggregator, r: Row, channel: string, status: string): Row {
    var m := r.channels[channel := status];
    Row(agg(m), m)
  }

  predicate Terminal(status: string) {
    status == COMPLETED || status == FAILED
  }

  // ---------------------------------------------------------------- comparing the dialects

  ghost function UpperMap(m: map<string, string>): map<string, string> {
    map c | c in m :: Upper(m[c])
  }

  /** For a word in capitals that avoids the letters with non-ASCII relatives, folding is the
      same as ASCII upper-casing. */
  lemma FoldIsUpper(fold: char -> char, s: string, word: string)
    requires forall i :: 0 <= i < |word| ==>
      forall c :: fold(c) == fold(word[i]) <==> UpperChar(c) == word[i]
    ensures EqualBy(fold, s, word) <==> Upper(s) == word
  {
  }

  /** A status that Java reads as FAILED although no ASCII upper-casing makes it so. */
  predicate JavaOnlyFailed(s: string) {
    Is(Java, s, FAILED) && exists i :: 0 <= i < |s| && DottedOrDotless(s[i])
  }

  lemma GoIs(s: string)
    ensures Is(Go, s, COMPLETED) <==> Upper(s) == COMPLETED
    ensures Is(Go, s, FAILED) <==> Upper(s) == FAILED
  {
  }

  lemma JavaIs(s: string)
    ensures Is(Java, s, COMPLETED) <==> Upper(s) == COMPLETED
    ensures Is(Java, s, FAILED) <==> Upper(s) == FAILED || JavaOnlyFailed(s)
    ensures !(Upper(s) == FAILED && JavaOnlyFailed(s))
  {
    FoldIsUpper(JavaFold, s, COMPLETED);
    GoIs(s);
    if Upper(s) == FAILED {
      forall i | 0 <= i < |s| ensures !DottedOrDotless(s[i]) && JavaFold(s[i]) == JavaFold(FAILED[i]) {
        assert Upper(s)[i] == FAILED[i];
      }
    }
  }

  /** Go's aggregation is the strict one applied to the upper-cased map, for every map. */
  lemma GoAggregatesUpperCased(m: map<string, string>)
    ensures Agg(Go, m) == Agg(TypeScript, UpperMap(m))
  {
    forall c | c in m
      ensures Is(Go, m[c], COMPLETED) <==> Is(TypeScript, UpperMap(m)[c], COMPLETED)
      ensures Is(Go, m[c], FAILED) <==> Is(TypeScript, UpperMap(m)[c], FAILED)
    {
      GoIs(m[c]);
    }
    if AnyFailed(Go, m) {
      var c :| c in m && Is(Go, m[c], FAILED);
      assert c in UpperMap(m) && Is(TypeScript, UpperMap(m)[c], FAILED);
    }
  }

  /** Java's aggregation is the strict one on the upper-cased map exactly when a status that only
      Java reads as FAILED never stands alone: some other channel must be FAILED in ASCII. */
  lemma JavaAggregatesUpperCasedIff(m: map<string, string>)
    ensures Agg(Java, m) == Agg(TypeScript, UpperMap(m)) <==>
            ((exists c :: c in m && JavaOnlyFailed(m[c])) ==> (exists c :: c in m && Upper(m[c]) == FAILED))
  {
    forall c | c in m
      ensures Is(Java, m[c], COMPLETED) <==> Is(TypeScript, UpperMap(m)[c], COMPLETED)
      ensures Is(Java, m[c], FAILED) <==> Is(TypeScript, UpperMap(m)[c], FAILED) || JavaOnlyFailed(m[c])
      ensures JavaOnlyFailed(m[c]) ==> !Is(Java, m[c], COMPLETED)
    {
      JavaIs(m[c]);
    }
    assert AllCompleted(Java, m) == AllCompleted(TypeScript, UpperMap(m));
    assert AnyFailed(TypeScript, UpperMap(m)) <==> exists c :: c in m && Upper(m[c]) == FAILED by {
      if c :| c in m && Upper(m[c]) == FAILED {
        assert c in UpperMap(m) && Is(TypeScript, UpperMap(m)[c], FAILED);
      }
    }
    assert AnyFailed(Java, m) <==>
      AnyFailed(TypeScript, UpperMap(m)) || exists c :: c in m && JavaOnlyFailed(m[c]);
  }

  /** The exact condition above is not idle: this status divides Java from Go. */
  lemma JavaAndGoDisagree()
    ensures var m := map["email" := "FA\U{0131}LED"];
            Agg(Java, m) == PARTIAL_FAILURE && Agg(Go, m) == PROCESSING
  {
    var s := "FA\U{0131}LED";
    var m := map["email" := s];
    assert s[2] == '\U{0131}';
    assert Is(Java, s, FAILED);
    assert Upper(s)[2] == '\U{0131}';
    assert |s| != |COMPLETED|;
    GoIs(s);
    assert "email" in m && m["email"] == s;
  }

  /** A string every dialect reads literally: no small ASCII letter, no dotted or dotless i. */
  predicate Plain(s: string) {
    forall i :: 0 <= i < |s| ==> UpperChar(s[i]) == s[i] && !DottedOrDotless(s[i])
  }

  lemma PlainIsLiteral(d: Dialect, s: string)
    requires Plain(s)
    ensures Is(d, s, COMPLETED) <==> s == COMPLETED
    ensures Is(d, s, FAILED) <==> s == FAILED
  {
  }

  lemma StagesArePlain(d: Dialect, s: string)
    requires s == PENDING || s == PROCESSING || s == COMPLETED || s == FAILED
    ensures Is(d, s, COMPLETED) <==> s == COMPLETED
    ensures Is(d, s, FAILED) <==> s == FAILED
  {
  }

  /** What the aggregate tells a reader of a channel map: COMPLETED when all channels are,
      PARTIAL_FAILURE when one has failed, PROCESSING when none has and some are not done. TypeScript
      and Rust compare exactly, so there it holds of any statuses. */
  lemma AggregateMeaning(d: Dialect, m: map<string, string>)
    requires d.TypeScript? || d.Rust? || forall c :: c in m ==> Plain(m[c])
    ensures Agg(d, m) == COMPLETED <==> m.Values <= {COMPLETED}
    ensures Agg(d, m) == PARTIAL_FAILURE <==> FAILED in m.Values
    ensures Agg(d, m) == PROCESSING <==> FAILED !in m.Values && !(m.Values <= {COMPLETED})
  {
    forall c | c in m
      ensures Is(d, m[c], COMPLETED) <==> m[c] == COMPLETED
      ensures Is(d, m[c], FAILED) <==> m[c] == FAILED
      ensures m[c] in m.Values
    {
      if Plain(m[c]) {
        PlainIsLiteral(d, m[c]);
      }
    }
  }

  /** How each service reads a stored string for a word in capitals, character by character: as it
      stands in TypeScript and Rust, up to ASCII case in Go, and in Java with a dotted or dotless I too. */
  predicate Reads(d: Dialect, s: string, word: string) {
    match d
    case TypeScript => s == word
    case Rust => s == word
    case Go => |s| == |word| && forall i :: 0 <= i < |s| ==> UpperChar(s[i]) == word[i]
    case Java => |s| == |word| && forall i :: 0 <= i < |s| ==>
                   UpperChar(s[i]) == word[i] || (word[i] == 'I' && (s[i] == '\U{0130}' || s[i] == '\U{0131}'))
  }

  lemma IsReads(d: Dialect, s: string)
    ensures Is(d, s, COMPLETED) <==> Reads(d, s, "COMPLETED")
    ensures Is(d, s, FAILED) <==> Reads(d, s, "FAILED")
  {
    match d {
      case Go => GoReads(s);
      case Java =>
        JavaReads(s, "COMPLETED");
        JavaReads(s, "FAILED");
      case _ =>
    }
  }

  lemma GoReads(s: string)
    ensures Is(Go, s, COMPLETED) <==> Reads(Go, s, "COMPLETED")
    ensures Is(Go, s, FAILED) <==> Reads(Go, s, "FAILED")
  {
    GoIs(s);
    forall word: string | word == "COMPLETED" || word == "FAILED" ensures Upper(s) == word <==> Reads(Go, s, word) {
      if Upper(s) == word {
        forall i | 0 <= i < |s| ensures UpperChar(s[i]) == word[i] {
          assert Upper(s)[i] == word[i];
        }
      }
    }
  }

  lemma JavaReads(s: string, word: string)
    requires word == "COMPLETED" || word == "FAILED"
    ensures EqualBy(JavaFold, s, word) <==> Reads(Java, s, word)
  {
    forall i | 0 <= i < |s| == |word|
      ensures JavaFold(s[i]) == JavaFold(word[i]) <==>
              UpperChar(s[i]) == word[i] || (word[i] == 'I' && (s[i] == '\U{0130}' || s[i] == '\U{0131}'))
    {
    }
  }

  /** The row's status is what the service reads off the row's own channels. */
  predicate StatusReads(d: Dialect, r: Row) {
    var done := forall c :: c in r.channels ==> Reads(d, r.channels[c], "COMPLETED");
    var failed := exists c :: c in r.channels && Reads(d, r.channels[c], "FAILED");
    && (r.status == "COMPLETED" <==> done)
    && (r.status == "PARTIAL_FAILURE" <==> failed)
    && (r.status == "PROCESSING" <==> !done && !failed)
  }

  /** As created: every channel still to be taken up. */
  predicate Fresh(r: Row) {
    r.status == "ENQUEUED" && forall c :: c in r.channels ==> r.channels[c] == "PENDING"
  }

  lemma AggregateReads(d: Dialect, m: map<string, string>)
    ensures StatusReads(d, Row(Agg(d, m), m))
  {
    forall c | c in m
      ensures Is(d, m[c], COMPLETED) <==> Reads(d, m[c], "COMPLETED")
      ensures Is(d, m[c], FAILED) <==> Reads(d, m[c], "FAILED")
      ensures !(Reads(d, m[c], "COMPLETED") && Reads(d, m[c], "FAILED"))
    {
      IsReads(d, m[c]);
    }
  }

  /** The words as they are stored and shown, no two the same. */
  lemma StatusWords()
    ensures [ENQUEUED, PENDING, PROCESSING, COMPLETED, FAILED, PARTIAL_FAILURE] ==
            ["ENQUEUED", "PENDING", "PROCESSING", "COMPLETED", "FAILED", "PARTIAL_FAILURE"]
    ensures |{ENQUEUED, PENDING, PROCESSING, COMPLETED, FAILED, PARTIAL_FAILURE}| == 6
  {
    var three := {ENQUEUED, PENDING, PROCESSING};
    assert |three| == 3;
    assert |three + {COMPLETED}| == 4;
    assert |three + {COMPLETED, FAILED}| == |three + {COMPLETED} + {FAILED}| == 5 by {
      assert three + {COMPLETED, FAILED} == three + {COMPLETED} + {FAILED};
    }
    assert {ENQUEUED, PENDING, PROCESSING, COMPLETED, FAILED, PARTIAL_FAILURE} ==
      three + {COMPLETED, FAILED} + {PARTIAL_FAILURE};
  }

  /** What an update of the only channel makes of the overall status, word by word; only Go and Java
      read the words in small letters. */
  lemma SingleChannel(d: Dialect, r: Row, c: string)
    requires r.channels.Keys <= {c}
    ensures Touch(AggBy(d), r, c, "COMPLETED").status == "COMPLETED"
    ensures Touch(AggBy(d), r, c, "FAILED").status == "PARTIAL_FAILURE"
    ensures Touch(AggBy(d), r, c, "PROCESSING").status == "PROCESSING"
    ensures Touch(AggBy(d), r, c, "PENDING").status == "PROCESSING"
    ensures Touch(AggBy(d), r, c, "completed").status == if d.Go? || d.Java? then "COMPLETED" else "PROCESSING"
    ensures Touch(AggBy(d), r, c, "failed").status == if d.Go? || d.Java? then "PARTIAL_FAILURE" else "PROCESSING"
  {
    OneValue(d, r, c, "COMPLETED");
    OneValue(d, r, c, "FAILED");
    OneValue(d, r, c, "PROCESSING");
    OneValue(d, r, c, "PENDING");
    OneValue(d, r, c, "completed");
    OneValue(d, r, c, "failed");
    WordsRead(d);
  }

  lemma OneValue(d: Dialect, r: Row, c: string, v: string)
    requires r.channels.Keys <= {c}
    ensures var st := Touch(AggBy(d), r, c, v).status;
            && (Reads(d, v, "COMPLETED") ==> st == "COMPLETED")
            && (Reads(d, v, "FAILED") ==> st == "PARTIAL_FAILURE")
            && (!Reads(d, v, "COMPLETED") && !Reads(d, v, "FAILED") ==> st == "PROCESSING")
  {
    var m := r.channels[c := v];
    assert m == map[c := v];
    assert c in m && m[c] == v;
    AggregateReads(d, m);
  }

  lemma WordsRead(d: Dialect)
    ensures Reads(d, "COMPLETED", "COMPLETED") && Reads(d, "FAILED", "FAILED")
    ensures forall word :: word == "COMPLETED" || word == "FAILED" ==>
              !Reads(d, "PROCESSING", word) && !Reads(d, "PENDING", word)
    ensures Reads(d, "completed", "COMPLETED") <==> d.Go? || d.Java?
    ensures Reads(d, "failed", "FAILED") <==> d.Go? || d.Java?
    ensures !Reads(d, "completed", "FAILED") && !Reads(d, "failed", "COMPLETED")
  {
    InCapitals(d, "COMPLETED");
    InCapitals(d, "FAILED");
    SmallLetters(d);
  }

  lemma InCapitals(d: Dialect, word: string)
    requires word == "COMPLETED" || word == "FAILED"
    ensures Reads(d, word, word)
  {
  }

  lemma SmallLetters(d: Dialect)
    ensures Reads(d, "completed", "COMPLETED") <==> d.Go? || d.Java?
    ensures Reads(d, "failed", "FAILED") <==> d.Go? || d.Java?
  {
    if d.TypeScript? || d.Rust? {
      assert "completed"[0] == 'c' && "failed"[0] == 'f';
    }
  }

  /** On plain statuses all dialects aggregate alike. */
  lemma PlainAggregatesAlike(d: Dialect, e: Dialect, m: map<string, string>)
    requires forall c :: c in m ==> Plain(m[c])
    ensures Agg(d, m) == Agg(e, m)
  {
    forall c | c in m
      ensures Is(d, m[c], COMPLETED) == Is(e, m[c], COMPLETED)
      ensures Is(d, m[c], FAILED) == Is(e, m[c], FAILED)
    {
      PlainIsLiteral(d, m[c]);
      PlainIsLiteral(e, m[c]);
    }
  }
}
