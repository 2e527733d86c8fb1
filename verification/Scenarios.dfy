/** Who takes part in an incident-response session and the wording they use. The executors are
    written over any wording; `Fits` lists what the session's guarantees need of it. */
module Scenarios {
  import opened Strings
  import opened Confidence

  /** A value between nought and one. */
  type Unit = r: real | 0.0 <= r <= 1.0 witness 0.0

  /** A keyword, its weight and what it is evidence of. */
  datatype Signal = Signal(keyword: string, weight: Unit, description: string)

  datatype Scenario = Scenario(
    client: string,
    monitoring: string,
    logger: string,
    diagnostics: string,
    remediation: string,
    trigger: string,
    approval: string,
    metrics: string,
    logs: seq<string>,
    logSignals: seq<Signal>,
    metricsSignals: seq<Signal>,
    cause: string,
    plan: string,
    executed: string)

  const THRESHOLD := 0.7

  predicate HasAnomaly(text: string) {
    Contains(Upper(text), "ANOMALY")
  }

  predicate HasApproved(text: string) {
    Contains(Upper(text), "APPROVED")
  }

  /** A text that neither raises an alarm nor grants an approval. */
  predicate Calm(text: string) {
    !HasAnomaly(text) && !HasApproved(text)
  }

  function LogText(line: string): string {
    "LOG: " + line
  }

  function DiagnosisText(sc: Scenario, confidence: Unit, evidence: seq<string>): string {
    "DIAGNOSIS (" + "confidence: " + Format(confidence) + ")" + (sc.cause + (Join("; ", Dedup(evidence)) + "."))
  }

  /** The signals whose keyword occurs in a line, in list order. */
  function Matches(signals: seq<Signal>, line: string): seq<Signal> {
    if signals == [] then []
    else
      (if Contains(Lower(line), Lower(signals[0].keyword)) then [signals[0]] else []) + Matches(signals[1..], line)
  }

  function Total(signals: seq<Signal>): real {
    if signals == [] then 0.0 else Total(signals[..|signals| - 1]) + signals[|signals| - 1].weight
  }

  function Descriptions(signals: seq<Signal>): seq<string> {
    seq(|signals|, i requires 0 <= i < |signals| => signals[i].description)
  }

  /** What the log agent's lines amount to in all. */
  function LogsTotal(signals: seq<Signal>, logs: seq<string>): real {
    if logs == [] then 0.0
    else LogsTotal(signals, logs[..|logs| - 1]) + Total(Matches(signals, Strip(LogText(logs[|logs| - 1])[4..])))
  }

  function Agents(sc: Scenario): seq<string> {
    [sc.monitoring, sc.logger, sc.diagnostics, sc.remediation]
  }

  predicate NamesFit(sc: Scenario) {
    && sc.client != ""
    && sc.client !in Agents(sc)
    && sc.monitoring != sc.logger && sc.monitoring != sc.diagnostics && sc.monitoring != sc.remediation
    && sc.logger != sc.diagnostics && sc.logger != sc.remediation && sc.diagnostics != sc.remediation
  }

  ghost predicate TextsFit(sc: Scenario) {
    && HasAnomaly(sc.trigger) && !HasApproved(sc.trigger)
    && HasApproved(sc.approval) && !HasAnomaly(sc.approval)
    && Calm("")
    && Calm(sc.metrics)
    && (forall i :: 0 <= i < |sc.logs| ==> Calm(LogText(sc.logs[i])))
    && (forall c: Unit, evidence: seq<string> {:trigger DiagnosisText(sc, c, evidence)} ::
          (forall e :: e in evidence ==> e in Descriptions(sc.logSignals) + Descriptions(sc.metricsSignals))
          ==> Calm(DiagnosisText(sc, c, evidence)))
    && Calm(sc.plan) && Contains(sc.plan, "REMEDIATION:") && !Contains(sc.plan, "REMEDIATION EXECUTED:")
    && Calm(sc.executed) && Contains(sc.executed, "REMEDIATION EXECUTED:") && !Contains(sc.executed, "REMEDIATION:")
  }

  ghost predicate Fits(sc: Scenario) {
    NamesFit(sc) && TextsFit(sc) && LogsTotal(sc.logSignals, sc.logs) >= THRESHOLD
  }

  lemma {:induction false} TotalConcat(a: seq<Signal>, b: seq<Signal>)
    ensures Total(a + b) == Total(a) + Total(b)
  {
    if b == [] {
      assert a + b == a;
    } else {
      assert (a + b)[..|a + b| - 1] == a + b[..|b| - 1];
      TotalConcat(a, b[..|b| - 1]);
    }
  }

  lemma {:induction false} TotalNonnegative(signals: seq<Signal>)
    ensures Total(signals) >= 0.0
  {
    if signals != [] {
      TotalNonnegative(signals[..|signals| - 1]);
    }
  }

  /** A printed diagnosis starts with its keyword and reads back as its confidence to one decimal, so
      one that reached the threshold is never read as falling short of it. */
  lemma DiagnosisReadsBack(sc: Scenario, confidence: Unit, evidence: seq<string>)
    ensures StartsWith(DiagnosisText(sc, confidence, evidence), "DIAGNOSIS")
    ensures ReadConfidence(DiagnosisText(sc, confidence, evidence)).Number?
    ensures -0.05 <= ReadConfidence(DiagnosisText(sc, confidence, evidence)).value - confidence <= 0.05
    ensures confidence >= THRESHOLD ==> ReadConfidence(DiagnosisText(sc, confidence, evidence)).value >= THRESHOLD
  {
    ReadPrinted("DIAGNOSIS (", confidence, sc.cause + (Join("; ", Dedup(evidence)) + "."));
    TenthsNearest(confidence);
  }
}
