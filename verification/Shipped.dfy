/** The wording the agents and the client ship with, and the proof that it fits. Texts are written as
    words joined by blanks, so that a keyword without a blank can be looked for word by word. */
module Shipped {
  import opened Strings
  import opened Confidence
  import opened Scenarios
  import opened Options
  import opened Wire
  import opened Relay
  import opened Execution
  import opened Executors
  import opened Sessions
  import opened Incident
  import opened GentleRuns
  import opened Outcome
  import GroupIncident
  import GroupOutcome

  const AREA := "mydomain/demo/"

  const TRIGGER := ["ANOMALY", "DETECTED: /api/checkout", "error rate 45%", "(threshold: 5%).", "Duration: 90s.", "Affected region: us-east-1."]

  const APPROVAL := ["APPROVED:", "please execute the", "remediation plan."]

  const METRICS := ["METRICS:", "service=/api/checkout", "error_rate=45% threshold=5%", "p99_latency=28400ms",
                    "baseline_p99=320ms", "affected_region=us-east-1", "spike_start=2024-01-15T10:22:30Z", "db_pool_wait_ms=29800"]

  const LOG_1 := ["2024-01-15T10:23:01Z ERROR", "checkout: dial tcp", "db.prod:5432:", "connection refused"]
  const LOG_2 := ["2024-01-15T10:23:02Z ERROR", "checkout: dial tcp", "db.prod:5432:", "connection refused", "(x47 in 1s)"]
  const LOG_3 := ["2024-01-15T10:23:03Z WARN ", "checkout:", "connection pool exhausted", "(max=20, waiting=134)"]
  const LOG_4 := ["2024-01-15T10:23:04Z ERROR", "checkout: context", "deadline exceeded", "after 30s waiting", "for db conn"]
  const LOG_5 := ["2024-01-15T10:23:04Z INFO ", "db.prod:", "max_connections=100", "active=100", "idle=0"]

  const REFUSED := Signal("connection refused", 0.3, "DB connections being refused")
  const EXHAUSTED := Signal("connection pool exhausted", 0.25, "DB connection pool is full")
  const EXCEEDED := Signal("deadline exceeded", 0.15, "requests timing out waiting for DB")
  const MAXIMUM := Signal("max_connections=100 active=100", 0.1, "DB at maximum connection limit")

  const WAITING := Signal("db_pool_wait_ms", 0.3, Join(" ", ["elevated", "DB pool wait time in metrics"]))
  const ERRORS := Signal("error_rate=45%", 0.2, Join(" ", ["high error rate on checkout", "service"]))

  const CAUSE := ["DB connection pool exhausted", "on checkout", "service", "\U{2014}", "db.prod is not accepting", "new connections.", "Evidence:"]

  const PLAN := ["REMEDIATION:", "DB connection pool exhausted", "on checkout", "service.", "Proposed actions:",
                 "(1) Restart checkout-db-pool:", "`systemctl", "restart checkout-db-pool`.", "(2) Increase max_connections",
                 "on db.prod from 100 \U{2192} 200", "(edit /etc/postgresql/postgresql.conf,", "then reload).", "Expected", "recovery",
                 "time: ~30s after step 1.", "Post-incident: add", "connection-pool alerting at", "80% utilisation.", "Awaiting",
                 "approval", "to execute."]

  const EXECUTED := ["EXECUTED:", "Restarted checkout-db-pool \U{2014}", "pool accepting connections.", "Updated max_connections to 200",
                     "on db.prod and reloaded", "config. Error rate returning", "to baseline. Incident", "resolved."]

  function Text(words: seq<string>): string {
    Join(" ", words)
  }

  const LOGS := [Text(LOG_1), Text(LOG_2), Text(LOG_3), Text(LOG_4), Text(LOG_5)]
  const LOG_SIGNALS := [REFUSED, EXHAUSTED, EXCEEDED, MAXIMUM]
  const METRICS_SIGNALS := [WAITING, ERRORS]

  const SHIPPED := Scenario(
    AREA + "client", AREA + "monitoring-agent", AREA + "log-agent", AREA + "diagnostics-agent", AREA + "remediation-agent",
    Text(TRIGGER), Text(APPROVAL), Text(METRICS),
    LOGS,
    LOG_SIGNALS,
    METRICS_SIGNALS,
    ": " + (Text(CAUSE) + " "),
    Text(PLAN),
    "REMEDIATION" + " " + Text(EXECUTED))

  // Words without certain letters.

  /** Neither `upper` nor `lower` occurs. */
  predicate Free(word: string, upper: char, lower: char) {
    forall i :: 0 <= i < |word| ==> word[i] != upper && word[i] != lower
  }

  /** No Y and no V: neither keyword can occur. */
  predicate Plain(word: string) {
    forall i :: 0 <= i < |word| ==> word[i] !in {'Y', 'y', 'V', 'v'}
  }

  lemma FreeLacks(word: string, pattern: string, upper: char, lower: char)
    requires upper in pattern && lower == LowerChar(upper) && Free(word, upper, lower)
    ensures !Contains(Upper(word), pattern)
  {
    UpperLacksCharacter(word, pattern, upper);
  }

  lemma PlainIsCalm(word: string)
    requires Plain(word)
    ensures Calm(word)
  {
    FreeLacks(word, "ANOMALY", 'Y', 'y');
    FreeLacks(word, "APPROVED", 'V', 'v');
  }

  lemma CalmSplit(a: string, separator: char, b: string)
    requires Calm(a) && Calm(b) && separator in {' ', ';', '.'}
    ensures Calm(a + [separator] + b)
  {
    UpperSplitAt(a, separator, b, "ANOMALY");
    UpperSplitAt(a, separator, b, "APPROVED");
  }

  lemma {:induction false} CalmWords(words: seq<string>)
    requires forall w :: w in words ==> Calm(w)
    ensures Calm(Text(words))
  {
    if |words| == 0 {
      PlainIsCalm("");
    } else if |words| > 1 {
      CalmWords(words[..|words| - 1]);
      CalmSplit(Text(words[..|words| - 1]), ' ', words[|words| - 1]);
    }
  }

  /** A keyword without a blank occurs in a text only within a word. */
  lemma {:induction false} AbsentFromWords(words: seq<string>, pattern: string)
    requires ' ' !in pattern && pattern != "" && forall w :: w in words ==> !Contains(Upper(w), pattern)
    ensures !Contains(Upper(Text(words)), pattern)
  {
    if |words| == 0 {
      LacksCharacter("", pattern, pattern[0]);
      assert Upper("") == "";
    } else if |words| > 1 {
      AbsentFromWords(words[..|words| - 1], pattern);
      UpperSplitAt(Text(words[..|words| - 1]), ' ', words[|words| - 1], pattern);
    }
  }

  /** Every word occurs in the text, as it is. */
  lemma {:induction false} WordOccurs(words: seq<string>, k: nat) returns (before: string, after: string)
    requires k < |words|
    ensures Text(words) == before + words[k] + after
    ensures k == 0 ==> before == ""
  {
    if |words| == 1 {
      before, after := "", "";
    } else if k == |words| - 1 {
      before, after := Text(words[..k]) + " ", "";
    } else {
      before, after := WordOccurs(words[..|words| - 1], k);
      after := after + " " + words[|words| - 1];
    }
  }

  // The texts, one by one.

  lemma FreeIsCalm(word: string, noAnomaly: char, noApproval: char)
    requires noAnomaly in "ANOMALY" && Free(word, noAnomaly, LowerChar(noAnomaly))
    requires noApproval in "APPROVED" && Free(word, noApproval, LowerChar(noApproval))
    ensures Calm(word)
  {
    FreeLacks(word, "ANOMALY", noAnomaly, LowerChar(noAnomaly));
    FreeLacks(word, "APPROVED", noApproval, LowerChar(noApproval));
  }

  lemma KeywordsAreCapitals()
    ensures Upper("ANOMALY") == "ANOMALY" && Upper("APPROVED") == "APPROVED"
  {
  }

  lemma TriggerRaisesAlarm()
    ensures HasAnomaly(Text(TRIGGER))
  {
    var before, after := WordOccurs(TRIGGER, 0);
    UpperContainsMiddle(before, TRIGGER[0], after);
    KeywordsAreCapitals();
  }

  lemma TriggerGrantsNothing()
    ensures !HasApproved(Text(TRIGGER))
  {
    assert Free("ANOMALY", 'V', 'v') && Free("DETECTED: /api/checkout", 'V', 'v') && Free("error rate 45%", 'V', 'v');
    assert Free("(threshold: 5%).", 'V', 'v') && Free("Duration: 90s.", 'V', 'v') && Free("Affected region: us-east-1.", 'V', 'v');
    assert forall w :: w in TRIGGER ==> Free(w, 'V', 'v');
    forall w | w in TRIGGER
      ensures !Contains(Upper(w), "APPROVED")
    {
      FreeLacks(w, "APPROVED", 'V', 'v');
    }
    AbsentFromWords(TRIGGER, "APPROVED");
  }

  lemma ApprovalGrants()
    ensures HasApproved(Text(APPROVAL))
  {
    var before, after := WordOccurs(APPROVAL, 0);
    assert before + "APPROVED:" + after == before + "APPROVED" + (":" + after);
    UpperContainsMiddle(before, "APPROVED", ":" + after);
    KeywordsAreCapitals();
  }

  lemma ApprovalAlarmsNobody()
    ensures !HasAnomaly(Text(APPROVAL))
  {
    assert Free("APPROVED:", 'Y', 'y') && Free("please execute the", 'Y', 'y') && Free("remediation plan.", 'Y', 'y');
    assert forall w :: w in APPROVAL ==> Free(w, 'Y', 'y');
    forall w | w in APPROVAL
      ensures !Contains(Upper(w), "ANOMALY")
    {
      FreeLacks(w, "ANOMALY", 'Y', 'y');
    }
    AbsentFromWords(APPROVAL, "ANOMALY");
  }

  // The texts that only have to be calm.

  /** The words that have a Y or a V after all lack another letter of each keyword. */
  lemma WordsWithYOrV()
    ensures Calm("service=/api/checkout") && Calm("p99_latency=28400ms") && Calm("active=100") && Calm("service")
    ensures Calm("Evidence:")
  {
    FreeIsCalm("service=/api/checkout", 'Y', 'D');
    FreeIsCalm("p99_latency=28400ms", 'O', 'V');
    FreeIsCalm("active=100", 'Y', 'D');
    FreeIsCalm("service", 'Y', 'D');
    FreeIsCalm("Evidence:", 'Y', 'P');
  }

  lemma MoreWordsWithYOrV()
    ensures Calm("service.") && Calm("`systemctl") && Calm("recovery") && Calm("approval") && Calm("resolved.")
  {
    FreeIsCalm("service.", 'Y', 'D');
    FreeIsCalm("`systemctl", 'O', 'V');
    FreeIsCalm("recovery", 'N', 'D');
    FreeIsCalm("approval", 'Y', 'D');
    FreeIsCalm("resolved.", 'Y', 'P');
  }

  lemma CalmText(words: seq<string>)
    requires forall w :: w in words ==> Plain(w) || Calm(w)
    ensures Calm(Text(words))
  {
    forall w | w in words
      ensures Calm(w)
    {
      if Plain(w) {
        PlainIsCalm(w);
      }
    }
    CalmWords(words);
  }

  lemma MetricsWordsA()
    ensures Plain("METRICS:") && Plain("error_rate=45% threshold=5%") && Plain("baseline_p99=320ms")
    ensures Plain("affected_region=us-east-1")
  {
  }

  lemma MetricsWordsB()
    ensures Plain("spike_start=2024-01-15T10:22:30Z") && Plain("db_pool_wait_ms=29800")
  {
  }

  lemma MetricsIsCalm()
    ensures Calm(Text(METRICS))
  {
    MetricsWordsA();
    MetricsWordsB();
    WordsWithYOrV();
    CalmText(METRICS);
  }

  lemma Log1IsCalm()
    ensures Calm(Text(LOG_1))
  {
    assert Plain("2024-01-15T10:23:01Z ERROR") && Plain("checkout: dial tcp") && Plain("db.prod:5432:");
    assert Plain("connection refused");
    CalmText(LOG_1);
  }

  lemma Log2IsCalm()
    ensures Calm(Text(LOG_2))
  {
    assert Plain("2024-01-15T10:23:02Z ERROR") && Plain("checkout: dial tcp") && Plain("db.prod:5432:");
    assert Plain("connection refused");
    assert Plain("(x47 in 1s)");
    CalmText(LOG_2);
  }

  lemma Log3IsCalm()
    ensures Calm(Text(LOG_3))
  {
    assert Plain("2024-01-15T10:23:03Z WARN ") && Plain("checkout:") && Plain("connection pool exhausted");
    assert Plain("(max=20, waiting=134)");
    CalmText(LOG_3);
  }

  lemma Log4IsCalm()
    ensures Calm(Text(LOG_4))
  {
    assert Plain("2024-01-15T10:23:04Z ERROR") && Plain("checkout: context") && Plain("deadline exceeded");
    assert Plain("after 30s waiting");
    assert Plain("for db conn");
    CalmText(LOG_4);
  }

  lemma Log5IsCalm()
    ensures Calm(Text(LOG_5))
  {
    assert Plain("2024-01-15T10:23:04Z INFO ") && Plain("db.prod:") && Plain("max_connections=100");
    assert Plain("idle=0");
    WordsWithYOrV();
    CalmText(LOG_5);
  }

  lemma CauseIsCalm()
    ensures Calm(Text(CAUSE))
  {
    assert Plain("DB connection pool exhausted") && Plain("on checkout") && Plain("\U{2014}");
    assert Plain("db.prod is not accepting");
    assert Plain("new connections.");
    WordsWithYOrV();
    CalmText(CAUSE);
  }

  lemma PlanWordsA()
    ensures Plain("REMEDIATION:") && Plain("DB connection pool exhausted") && Plain("on checkout")
    ensures Plain("Proposed actions:")
  {
  }

  lemma PlanWordsB()
    ensures Plain("(1) Restart checkout-db-pool:") && Plain("restart checkout-db-pool`.")
    ensures Plain("(2) Increase max_connections")
  {
  }

  lemma PlanWordsC()
    ensures Plain("on db.prod from 100 \U{2192} 200") && Plain("(edit /etc/postgresql/postgresql.conf,")
    ensures Plain("then reload).")
  {
  }

  lemma PlanWordsD()
    ensures Plain("Expected") && Plain("time: ~30s after step 1.") && Plain("Post-incident: add")
    ensures Plain("connection-pool alerting at")
  {
  }

  lemma PlanWordsE()
    ensures Plain("80% utilisation.") && Plain("Awaiting") && Plain("to execute.")
  {
  }

  lemma PlanIsCalm()
    ensures Calm(Text(PLAN))
  {
    PlanWordsA();
    PlanWordsB();
    PlanWordsC();
    PlanWordsD();
    PlanWordsE();
    MoreWordsWithYOrV();
    CalmText(PLAN);
  }

  lemma ExecutedWordsA()
    ensures Plain("EXECUTED:") && Plain("Restarted checkout-db-pool \U{2014}") && Plain("pool accepting connections.")
  {
  }

  lemma ExecutedWordsB()
    ensures Plain("Updated max_connections to 200") && Plain("on db.prod and reloaded")
    ensures Plain("config. Error rate returning")
    ensures Plain("to baseline. Incident")
  {
  }

  lemma ExecutedIsCalm()
    ensures Calm(Text(EXECUTED))
  {
    ExecutedWordsA();
    ExecutedWordsB();
    MoreWordsWithYOrV();
    CalmText(EXECUTED);
  }

  // Telling the plan from the execution.

  lemma {:induction false} AbsentCharacter(words: seq<string>, c: char)
    requires c != ' ' && forall w :: w in words ==> Free(w, c, c)
    ensures c !in Text(words)
  {
    if |words| > 0 {
      assert forall w :: w in words ==> c !in w;
      if |words| > 1 {
        AbsentCharacter(words[..|words| - 1], c);
      }
    }
  }

  lemma PlanWithoutXA()
    ensures Free("REMEDIATION:", 'X', 'X') && Free("DB connection pool exhausted", 'X', 'X')
    ensures Free("on checkout", 'X', 'X') && Free("service.", 'X', 'X') && Free("Proposed actions:", 'X', 'X')
    ensures Free("(1) Restart checkout-db-pool:", 'X', 'X')
  {
  }

  lemma PlanWithoutXB()
    ensures Free("`systemctl", 'X', 'X') && Free("restart checkout-db-pool`.", 'X', 'X')
    ensures Free("(2) Increase max_connections", 'X', 'X') && Free("on db.prod from 100 \U{2192} 200", 'X', 'X')
  {
  }

  lemma PlanWithoutXC()
    ensures Free("(edit /etc/postgresql/postgresql.conf,", 'X', 'X') && Free("then reload).", 'X', 'X')
    ensures Free("Expected", 'X', 'X') && Free("recovery", 'X', 'X') && Free("time: ~30s after step 1.", 'X', 'X')
    ensures Free("Post-incident: add", 'X', 'X')
  {
  }

  lemma PlanWithoutXD()
    ensures Free("connection-pool alerting at", 'X', 'X') && Free("80% utilisation.", 'X', 'X')
    ensures Free("Awaiting", 'X', 'X') && Free("approval", 'X', 'X') && Free("to execute.", 'X', 'X')
  {
  }

  lemma PlanReads()
    ensures Contains(Text(PLAN), "REMEDIATION:") && !Contains(Text(PLAN), "REMEDIATION EXECUTED:")
  {
    var before, after := WordOccurs(PLAN, 0);
    ContainsMiddle(before, "REMEDIATION:", after);
    PlanWithoutXA();
    PlanWithoutXB();
    PlanWithoutXC();
    PlanWithoutXD();
    assert forall w :: w in PLAN ==> Free(w, 'X', 'X');
    AbsentCharacter(PLAN, 'X');
    LacksCharacter(Text(PLAN), "REMEDIATION EXECUTED:", 'X');
  }

  lemma ExecutedSaysSo()
    ensures Contains("REMEDIATION" + " " + Text(EXECUTED), "REMEDIATION EXECUTED:")
  {
    var before, after := WordOccurs(EXECUTED, 0);
    assert "REMEDIATION" + " " + "EXECUTED:" == "REMEDIATION EXECUTED:";
    assert "REMEDIATION" + " " + Text(EXECUTED) == "" + "REMEDIATION EXECUTED:" + after;
    ContainsMiddle("", "REMEDIATION EXECUTED:", after);
  }

  lemma ExecutedWithoutMA()
    ensures Free("EXECUTED:", 'M', 'M') && Free("Restarted checkout-db-pool \U{2014}", 'M', 'M')
    ensures Free("pool accepting connections.", 'M', 'M') && Free("Updated max_connections to 200", 'M', 'M')
  {
  }

  lemma ExecutedWithoutMB()
    ensures Free("on db.prod and reloaded", 'M', 'M') && Free("config. Error rate returning", 'M', 'M')
    ensures Free("to baseline. Incident", 'M', 'M') && Free("resolved.", 'M', 'M')
  {
  }

  lemma ExecutedIsNoPlan()
    ensures !Contains("REMEDIATION" + " " + Text(EXECUTED), "REMEDIATION:")
  {
    ExecutedWithoutMA();
    ExecutedWithoutMB();
    assert forall w :: w in EXECUTED ==> Free(w, 'M', 'M');
    AbsentCharacter(EXECUTED, 'M');
    LacksCharacter(Text(EXECUTED), "REMEDIATION:", 'M');
    LacksCharacter("REMEDIATION", "REMEDIATION:", ':');
    SplitAt("REMEDIATION", ' ', Text(EXECUTED), "REMEDIATION:");
  }

  lemma ExecutedFits()
    ensures Calm("REMEDIATION" + " " + Text(EXECUTED))
  {
    ExecutedIsCalm();
    PlainIsCalm("REMEDIATION");
    CalmSplit("REMEDIATION", ' ', Text(EXECUTED));
  }

  // The log lines.

  lemma LogTextIsCalm(line: string)
    requires Calm(line)
    ensures Calm(LogText(line))
  {
    PlainIsCalm("LOG:");
    CalmSplit("LOG:", ' ', line);
    assert "LOG: " + line == "LOG:" + [' '] + line;
  }

  lemma LogsAreCalm(line: string)
    requires line in LOGS
    ensures Calm(LogText(line))
  {
    Log1IsCalm();
    Log2IsCalm();
    Log3IsCalm();
    Log4IsCalm();
    Log5IsCalm();
    LogTextIsCalm(line);
  }

  // The diagnosis, whatever its confidence and its evidence.

  lemma FirstLogDescriptions()
    ensures Calm(REFUSED.description) && Calm(EXHAUSTED.description)
  {
    PlainIsCalm("DB connections being refused");
    PlainIsCalm("DB connection pool is full");
  }

  lemma MetricsDescriptions()
    ensures Calm(WAITING.description) && Calm(ERRORS.description)
  {
    FreeIsCalm("elevated", 'Y', 'P');
    PlainIsCalm("DB pool wait time in metrics");
    assert forall w :: w in ["elevated", "DB pool wait time in metrics"] ==> Calm(w);
    CalmWords(["elevated", "DB pool wait time in metrics"]);
    PlainIsCalm("high error rate on checkout");
    FreeIsCalm("service", 'Y', 'D');
    assert forall w :: w in ["high error rate on checkout", "service"] ==> Calm(w);
    CalmWords(["high error rate on checkout", "service"]);
  }

  lemma LastLogDescriptions()
    ensures Calm(EXCEEDED.description) && Calm(MAXIMUM.description)
  {
    PlainIsCalm("requests timing out waiting for DB");
    PlainIsCalm("DB at maximum connection limit");
  }

  lemma DescriptionsAreCalm(e: string)
    requires e in Descriptions(LOG_SIGNALS) + Descriptions(METRICS_SIGNALS)
    ensures Calm(e)
  {
    var all := Descriptions(LOG_SIGNALS) + Descriptions(METRICS_SIGNALS);
    assert all == [REFUSED.description, EXHAUSTED.description, EXCEEDED.description, MAXIMUM.description, WAITING.description, ERRORS.description];
    FirstLogDescriptions();
    LastLogDescriptions();
    MetricsDescriptions();
  }

  lemma {:induction false} CalmJoin(parts: seq<string>)
    requires forall p :: p in parts ==> Calm(p)
    ensures Calm(Join("; ", parts))
  {
    if |parts| == 0 {
      PlainIsCalm("");
    } else if |parts| > 1 {
      var init, last := parts[..|parts| - 1], parts[|parts| - 1];
      CalmJoin(init);
      PlainIsCalm("");
      CalmSplit("", ' ', last);
      CalmSplit(Join("; ", init), ';', "" + [' '] + last);
      assert Join("; ", init) + "; " + last == Join("; ", init) + [';'] + ("" + [' '] + last);
    }
  }

  lemma HeaderIsCalm(confidence: Unit)
    ensures Calm("DIAGNOSIS (" + "confidence: " + Format(confidence) + "):")
  {
    ParseFormatted(confidence);
    assert Plain("DIAGNOSIS (") && Plain("confidence: ") && Plain("):");
    var number := Format(confidence);
    assert forall k :: 0 <= k < 3 ==> IsNumeric(number[k]);
    assert Plain(number);
    PlainIsCalm("DIAGNOSIS (" + "confidence: " + number + "):");
  }

  lemma SentenceIsCalm(header: string, cause: string, evidence: string)
    requires Calm(header) && Calm(cause) && Calm(evidence)
    ensures Calm(header + [' '] + (cause + [' '] + (evidence + ['.'] + "")))
  {
    PlainIsCalm("");
    CalmSplit(evidence, '.', "");
    CalmSplit(cause, ' ', evidence + ['.'] + "");
    CalmSplit(header, ' ', cause + [' '] + (evidence + ['.'] + ""));
  }

  lemma DiagnosisParts(a: string, b: string, number: string, cause: string, evidence: string)
    ensures a + b + number + ")" + (": " + (cause + " ") + (evidence + "."))
         == (a + b + number + "):") + [' '] + (cause + [' '] + (evidence + ['.'] + ""))
  {
  }

  lemma DiagnosisFits(confidence: Unit, evidence: seq<string>)
    requires forall e :: e in evidence ==> e in Descriptions(LOG_SIGNALS) + Descriptions(METRICS_SIGNALS)
    ensures Calm(DiagnosisText(SHIPPED, confidence, evidence))
  {
    forall e | e in Dedup(evidence)
      ensures Calm(e)
    {
      DescriptionsAreCalm(e);
    }
    CalmJoin(Dedup(evidence));
    HeaderIsCalm(confidence);
    CauseIsCalm();
    SentenceIsCalm("DIAGNOSIS (" + "confidence: " + Format(confidence) + "):", Text(CAUSE), Join("; ", Dedup(evidence)));
    DiagnosisParts("DIAGNOSIS (", "confidence: ", Format(confidence), Text(CAUSE), Join("; ", Dedup(evidence)));
  }

  // The evidence in the log lines.

  lemma {:induction false} MatchWeighs(signals: seq<Signal>, line: string, k: nat)
    requires k < |signals| && Contains(Lower(line), Lower(signals[k].keyword))
    ensures Total(Matches(signals, line)) >= signals[k].weight
  {
    var rest := Matches(signals[1..], line);
    TotalNonnegative(rest);
    if k == 0 {
      TotalConcat([signals[0]], rest);
      assert [signals[0]][..0] == [];
      assert Total([signals[0]]) == signals[0].weight;
    } else {
      MatchWeighs(signals[1..], line, k - 1);
      if Contains(Lower(line), Lower(signals[0].keyword)) {
        TotalConcat([signals[0]], rest);
        TotalNonnegative([signals[0]]);
      } else {
        assert [] + rest == rest;
      }
    }
  }

  /** A log line that starts and ends with a visible character is read back as it is, and a keyword
      that is one of its words counts. */
  lemma LineWeighs(words: seq<string>, w: nat, signals: seq<Signal>, k: nat)
    requires w < |words| && k < |signals| && words[w] == signals[k].keyword
    requires Text(words) != "" && !IsSpace(Text(words)[0]) && !IsSpace(Text(words)[|Text(words)| - 1])
    ensures Total(Matches(signals, Strip(LogText(Text(words))[4..]))) >= signals[k].weight
  {
    var line := Text(words);
    StripLeadingSpace(line);
    assert LogText(line)[4..] == " " + line;
    var before, after := WordOccurs(words, w);
    LowerContainsMiddle(before, words[w], after);
    MatchWeighs(signals, line, k);
  }

  lemma LineEnds(words: seq<string>)
    requires |words| > 1 && words[0] != "" && words[|words| - 1] != ""
    ensures Text(words) != "" && Text(words)[0] == words[0][0]
    ensures var last := words[|words| - 1]; Text(words)[|Text(words)| - 1] == last[|last| - 1]
  {
    var before, after := WordOccurs(words, 0);
  }

  lemma FirstLineWeighs()
    ensures Total(Matches(LOG_SIGNALS, Strip(LogText(Text(LOG_1))[4..]))) >= 0.3
  {
    LineEnds(LOG_1);
    LineWeighs(LOG_1, 3, LOG_SIGNALS, 0);
  }

  lemma SecondLineWeighs()
    ensures Total(Matches(LOG_SIGNALS, Strip(LogText(Text(LOG_2))[4..]))) >= 0.3
  {
    LineEnds(LOG_2);
    LineWeighs(LOG_2, 3, LOG_SIGNALS, 0);
  }

  lemma ThirdLineWeighs()
    ensures Total(Matches(LOG_SIGNALS, Strip(LogText(Text(LOG_3))[4..]))) >= 0.25
  {
    LineEnds(LOG_3);
    LineWeighs(LOG_3, 2, LOG_SIGNALS, 1);
  }

  lemma {:induction false} TotalOfPrefix(signals: seq<Signal>, logs: seq<string>, n: nat)
    requires n <= |logs|
    ensures LogsTotal(signals, logs) >= LogsTotal(signals, logs[..n])
  {
    if n < |logs| {
      var init := logs[..|logs| - 1];
      TotalOfPrefix(signals, init, n);
      assert init[..n] == logs[..n];
      TotalNonnegative(Matches(signals, Strip(LogText(logs[|logs| - 1])[4..])));
    } else {
      assert logs[..n] == logs;
    }
  }

  lemma ThreeLines(signals: seq<Signal>, a: string, b: string, c: string)
    ensures LogsTotal(signals, [a, b, c]) == Total(Matches(signals, Strip(LogText(a)[4..])))
                                           + Total(Matches(signals, Strip(LogText(b)[4..])))
                                           + Total(Matches(signals, Strip(LogText(c)[4..])))
  {
    assert [a, b, c][..2] == [a, b] && [a, b][..1] == [a] && [a][..0] == [];
    assert LogsTotal(signals, [a]) == Total(Matches(signals, Strip(LogText(a)[4..])));
    assert LogsTotal(signals, [a, b]) == LogsTotal(signals, [a]) + Total(Matches(signals, Strip(LogText(b)[4..])));
  }

  lemma FirstThree()
    ensures |LOGS| == 5 && LOGS[..3] == [Text(LOG_1), Text(LOG_2), Text(LOG_3)]
  {
  }

  /** The first three log lines alone are enough. */
  lemma LogsSuffice()
    ensures LogsTotal(LOG_SIGNALS, LOGS) >= THRESHOLD
  {
    FirstLineWeighs();
    SecondLineWeighs();
    ThirdLineWeighs();
    ThreeLines(LOG_SIGNALS, Text(LOG_1), Text(LOG_2), Text(LOG_3));
    FirstThree();
    TotalOfPrefix(LOG_SIGNALS, LOGS, 3);
  }

  // The evidence in the metrics.

  lemma BothWordsOccur()
    ensures "METRICS:" <= Text(METRICS)
    ensures Contains(Lower(Text(METRICS)), Lower(WAITING.keyword)) && Contains(Lower(Text(METRICS)), Lower(ERRORS.keyword))
  {
    var none, rest := WordOccurs(METRICS, 0);
    assert "METRICS:" + rest == Text(METRICS);
    var before, after := WordOccurs(METRICS, 7);
    assert "db_pool_wait_ms=29800" == "db_pool_wait_ms" + "=29800";
    assert Text(METRICS) == before + "db_pool_wait_ms" + ("=29800" + after);
    LowerContainsMiddle(before, "db_pool_wait_ms", "=29800" + after);
    before, after := WordOccurs(METRICS, 2);
    assert "error_rate=45% threshold=5%" == "error_rate=45%" + " threshold=5%";
    assert Text(METRICS) == before + "error_rate=45%" + (" threshold=5%" + after);
    LowerContainsMiddle(before, "error_rate=45%", " threshold=5%" + after);
  }

  lemma BothMatch(a: Signal, b: Signal, line: string)
    requires Contains(Lower(line), Lower(a.keyword)) && Contains(Lower(line), Lower(b.keyword))
    ensures Matches([a, b], line) == [a, b] && Descriptions([a, b]) == [a.description, b.description]
    ensures Saturate(0.0, [a, b]) == Cap(Cap(a.weight) + b.weight)
  {
    assert [a, b][1..] == [b] && [b][1..] == [];
    assert Matches([b], line) == [b];
    assert [a, b][..1] == [a] && [a][..0] == [];
    assert Saturate(0.0, [a]) == Cap(a.weight);
  }

  lemma JoinTwo(a: string, b: string)
    ensures Join(" ", [a, b]) == a + " " + b
  {
    assert [a, b][..1] == [a] && [a, b][1..] == [b];
  }

  lemma WaitingWording()
    ensures WAITING.description == "elevated DB pool wait time in metrics"
  {
    JoinTwo("elevated", "DB pool wait time in metrics");
    assert "elevated" + " " + "DB pool wait time in metrics" == "elevated DB pool wait time in metrics";
  }

  lemma ErrorsWording()
    ensures ERRORS.description == "high error rate on checkout service"
  {
    JoinTwo("high error rate on checkout", "service");
    assert "high error rate on checkout" + " " + "service" == "high error rate on checkout service";
  }

  lemma HearsMetrics(sc: Scenario, text: string, a: Signal, b: Signal)
    requires sc.metricsSignals == [a, b] && "METRICS:" <= text && a.weight + b.weight < 0.7
    requires Contains(Lower(text), Lower(a.keyword)) && Contains(Lower(text), Lower(b.keyword))
    ensures React(sc, FRESH_DIAGNOSTICS, Line(sc.monitoring, text)) ==
              Reaction(Diagnostics([a.description, b.description], a.weight + b.weight, false), [], false)
  {
    BothMatch(a, b, text);
    assert text[0] == 'M';
    assert [] + [a.description, b.description] == [a.description, b.description];
  }

  /** The shipped metrics, heard first, are two pieces of evidence that weigh 0.5: not enough on their own. */
  lemma MetricsAreEvidence()
    ensures React(SHIPPED, FRESH_DIAGNOSTICS, Line(AREA + "monitoring-agent", Text(METRICS))) ==
              Reaction(Diagnostics(["elevated DB pool wait time in metrics", "high error rate on checkout service"], 0.5, false), [], false)
  {
    BothWordsOccur();
    WaitingWording();
    ErrorsWording();
    HearsMetrics(SHIPPED, Text(METRICS), WAITING, ERRORS);
  }

  // All together.

  lemma NamesDiffer()
    ensures NamesFit(SHIPPED)
  {
    assert |AREA| == 14;
    assert (AREA + "diagnostics-agent")[14] == 'd' && (AREA + "remediation-agent")[14] == 'r';
    var names := [|AREA + "client"|, |AREA + "monitoring-agent"|, |AREA + "log-agent"|, |AREA + "diagnostics-agent"|, |AREA + "remediation-agent"|];
    assert names == [20, 30, 23, 31, 31];
  }

  lemma EmptyIsCalm()
    ensures Calm("")
  {
    PlainIsCalm("");
  }

  lemma ShippedTextsFit()
    ensures TextsFit(SHIPPED)
  {
    TriggerRaisesAlarm();
    TriggerGrantsNothing();
    ApprovalGrants();
    ApprovalAlarmsNobody();
    EmptyIsCalm();
    MetricsIsCalm();
    forall i | 0 <= i < |LOGS|
      ensures Calm(LogText(LOGS[i]))
    {
      LogsAreCalm(LOGS[i]);
    }
    forall c: Unit, evidence: seq<string> | forall e :: e in evidence ==> e in Descriptions(LOG_SIGNALS) + Descriptions(METRICS_SIGNALS)
      ensures Calm(DiagnosisText(SHIPPED, c, evidence))
    {
      DiagnosisFits(c, evidence);
    }
    PlanIsCalm();
    PlanReads();
    ExecutedFits();
    ExecutedSaysSo();
    ExecutedIsNoPlan();
  }

  /** The shipped names, texts and weights have all that the session's guarantees need. */
  lemma ShippedFits()
    ensures Fits(SHIPPED)
  {
    NamesDiffer();
    ShippedTextsFit();
    LogsSuffice();
  }

  /** The shipped session is carried through in every maximal failure-free run, within 130 steps. */
  lemma ShippedOutcome(turns: seq<Turn>)
    requires GoesGently(SetupOf(SHIPPED), turns) && Settled(SetupOf(SHIPPED), Reached(SetupOf(SHIPPED), turns))
    ensures CarriedThrough(SHIPPED, Reached(SetupOf(SHIPPED), turns).room.relay)
    ensures |turns| <= 130
  {
    ShippedFits();
    FirstThree();
    GuaranteedOutcome(SHIPPED, turns);
  }

  /** And so it is over the group channel. */
  lemma ShippedGroupOutcome(turns: seq<GroupIncident.GroupTurn>)
    requires GroupOutcome.GroupGoesGently(SetupOf(SHIPPED), turns)
    requires GroupOutcome.SettledGroup(SetupOf(SHIPPED), GroupIncident.Gone(SetupOf(SHIPPED), turns))
    ensures GroupOutcome.GroupCarriedThrough(SHIPPED, GroupIncident.Gone(SetupOf(SHIPPED), turns))
    ensures |turns| <= 127
  {
    ShippedFits();
    FirstThree();
    GroupOutcome.GroupGuaranteedOutcome(SHIPPED, turns);
  }
}
