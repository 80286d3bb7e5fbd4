/** What a client is told of a failed round trip: the failure's kind, its place, and the answer made of them. */
module Diagnosis {
  import opened Options
  import opened Texts
  import C = Connect
  import E = Exposure
  import P = ProxyStatus
  import R = Redaction

  /** What can be asked of an error: whether it is the end of a context or a network timeout, and its text. */
  datatype Cause = Cause(over: bool, timesOut: bool, text: string)

  /** A hop's error in an error's chain: where it struck and how; the text it renders as; and the first line of its
      body. */
  datatype HopError = HopError(error: C.Error, cause: Cause, text: string, line: string)

  /** The error of a failed round trip; `opDial` is a net.OpError of a dial. */
  datatype Failure = Failure(hop: Option<HopError>, cause: Cause, opDial: bool, facts: P.Facts)

  /** Where the request was going: its host, and the upstream proxy's if it has one. */
  datatype Route = Route(host: string, proxied: bool, proxyHost: Option<string>)

  /** What the request saw of its connections: the hop phase its memo holds, and whether it got one to the origin. */
  datatype Seen = Seen(memo: C.Phase, connected: bool)

  datatype Diagnosis = Diagnosis(
    kind: string, message: string, phase: C.Phase, verdict: Option<C.Verdict>, connected: bool, nextHop: string)

  function PhaseName(p: C.Phase): string {
    match p
    case Idle => ""
    case Dial => "proxy-dial"
    case Tls => P.PHASE_TLS
    case Hop => "proxy-connect"
  }

  function Classify(f: Failure): string {
    var msg := Lower(f.cause.text);
    if f.hop.Some? then
      if f.hop.value.error.verdict.Some? then "proxy_rejected"
      else if f.hop.value.cause.over || f.hop.value.cause.timesOut then "timeout"
      else "proxy"
    else if f.cause.over || f.cause.timesOut then "timeout"
    else if Contains(msg, "proxy") then "proxy"
    else if Contains(msg, "tls") || Contains(msg, "certificate") || Contains(msg, "handshake") then "tls"
    else if f.opDial || Contains(msg, "dial") then "dial"
    else "read"
  }

  function NextHop(r: Route): string { if r.proxied && r.proxyHost.Some? then r.proxyHost.value else r.host }

  function Diagnose(f: Failure, r: Route, seen: Seen): Diagnosis {
    var kind := if r.proxied && Classify(f) == "dial" then "proxy" else Classify(f);
    var phase := if f.hop.Some? then f.hop.value.error.phase else if kind == "timeout" then seen.memo else C.Idle;
    var message :=
      if f.hop.Some? then f.hop.value.text
      else if kind != "timeout" then f.cause.text
      else if seen.memo != C.Idle then PhaseName(seen.memo) + ": waiting for " + NextHop(r)
      else if seen.connected then "waiting for response headers from " + r.host
      else "connecting to " + r.host;
    Diagnosis(kind, R.Redact(message), phase, if f.hop.Some? then f.hop.value.error.verdict else None,
              seen.connected, NextHop(r))
  }

  const BAD_GATEWAY := 502
  const GATEWAY_TIMEOUT := 504

  /** The answer: its status, its X-Tip-Error, TIP's Proxy-Status entry, and X-Tip-Proxy-Error if the hop said
      something. */
  datatype Answer = Answer(code: int, error: string, status: P.Status, hopError: Option<string>)

  function Code(d: Diagnosis): int { if d.kind == "timeout" then GATEWAY_TIMEOUT else BAD_GATEWAY }

  function UpstreamFailure(d: Diagnosis, f: Failure): Answer {
    var line := if d.verdict.Some? && f.hop.Some? then R.Redact(f.hop.value.line) else "";
    var kind := P.ErrorType(d.kind, PhaseName(d.phase), d.connected, f.facts);
    Answer(Code(d), d.kind + ": " + R.SingleLine(d.message),
           P.Status(kind, d.nextHop, if d.verdict.Some? then d.verdict.value.status else 0, line),
           if line == "" then None else Some(R.SingleLine(line)))
  }

  function Told(f: Failure, r: Route, seen: Seen): Answer { UpstreamFailure(Diagnose(f, r, seen), f) }

  /** The hop refused the request. */
  predicate Refused(f: Failure) { f.hop.Some? && f.hop.value.error.verdict.Some? }

  /** The two headers that are TIP's own words show no credentials of a URL, whatever the failure says. */
  lemma OwnWordsAreClean(f: Failure, r: Route, seen: Seen)
    ensures var a := Told(f, r, seen); R.Clean(a.error) && (a.hopError.Some? ==> R.Clean(a.hopError.value))
    ensures R.Clean(Told(f, r, seen).status.details)
  {
    var d, a := Diagnose(f, r, seen), Told(f, r, seen);
    MessageIsClean(f, r, seen);
    R.SingleLineKeepsClean(d.message);
    KindIsLabel(f, r, seen);
    R.LabelKeepsClean(d.kind + ": ", R.SingleLine(d.message));
    R.RedactionIsComplete(if f.hop.Some? then f.hop.value.line else "");
    R.RedactionIsComplete("");
    if a.hopError.Some? {
      R.SingleLineKeepsClean(a.status.details);
    }
  }

  lemma ErrorHasNoSlash(f: Failure, r: Route, seen: Seen)
    ensures '/' !in Told(f, r, seen).status.err
  {
    var d := Diagnose(f, r, seen);
    P.ErrorTypeHasNoSlash(d.kind, PhaseName(d.phase), d.connected, f.facts);
    hide Diagnose;
    hide P.ErrorType;
  }

  /** What the first line of a hop's refusal is; nothing if there was none. */
  function RefusalLine(f: Failure): string { if Refused(f) then f.hop.value.line else "" }

  lemma DetailsAreTheLine(f: Failure, r: Route, seen: Seen)
    ensures Told(f, r, seen).status.details == R.Redact(RefusalLine(f)) && Told(f, r, seen).status.nextHop == NextHop(r)
  {
    R.RedactionIsComplete("");
  }

  /** Of the three headers a client is told a failure with, X-Tip-Error and X-Tip-Proxy-Error never show the credentials
      of a URL. Proxy-Status does exactly when the hop's refusal has a line in which a tab, a form feed or a line break
      stands inside the credentials of a URL, or the next hop would show some; and a host, having no slash, cannot. */
  lemma CredentialsAreToldExactly(f: Failure, r: Route, seen: Seen)
    ensures var a := Told(f, r, seen);
            R.Clean(a.error) && (a.hopError.Some? ==> R.Clean(a.hopError.value)) &&
            (R.Clean(P.Print(a.status)) <==> R.Clean(P.ShownAll(NextHop(r))) && !E.Exposed(RefusalLine(f)))
    ensures '/' !in NextHop(r) ==> R.Clean(P.ShownAll(NextHop(r)))
    ensures E.OneLine(RefusalLine(f)) ==> !E.Exposed(RefusalLine(f))
  {
    var s, line := Told(f, r, seen).status, RefusalLine(f);
    OwnWordsAreClean(f, r, seen);
    ErrorHasNoSlash(f, r, seen);
    DetailsAreTheLine(f, r, seen);
    E.EntryShows(s);
    E.CleanShowsExactly(s.details);
    E.RedactExposes(line);
    HostIsClean(NextHop(r));
    if E.OneLine(line) {
      E.OneLineIsSafe(line);
    }
  }

  lemma HostIsClean(host: string)
    ensures '/' !in host ==> R.Clean(P.ShownAll(host))
  {
    if '/' !in host {
      var t := P.ShownAll(host);
      assert forall k :: 0 <= k < |host| ==> host[k] in host && t[k] == P.Shown(host[k]) != '/';
      E.NoSlashIsClean(t);
    }
  }

  /** And it happens: a hop refuses, and its line has a tab in front of a password. */
  lemma TabShowsCredentials(f: Failure, r: Route, seen: Seen)
    requires Refused(f) && f.hop.value.line == "http://u\t:p@h"
    ensures !R.Clean(P.Print(Told(f, r, seen).status))
  {
    var line := f.hop.value.line;
    assert E.Broken(line, 0, 4, 12, 8);
    CredentialsAreToldExactly(f, r, seen);
  }

  lemma MessageIsClean(f: Failure, r: Route, seen: Seen)
    ensures R.Clean(Diagnose(f, r, seen).message)
  {
    R.RedactClean(
      if f.hop.Some? then f.hop.value.text
      else if Diagnose(f, r, seen).kind != "timeout" then f.cause.text
      else if seen.memo != C.Idle then PhaseName(seen.memo) + ": waiting for " + NextHop(r)
      else if seen.connected then "waiting for response headers from " + r.host
      else "connecting to " + r.host);
  }

  /** A text without a slash, as the start of a header value. */
  lemma LabelOf(kind: string)
    requires '/' !in kind
    ensures R.IsLabel(kind + ": ")
  {
  }

  lemma KindHasNoSlash(f: Failure, r: Route, seen: Seen)
    ensures '/' !in Diagnose(f, r, seen).kind
  {
    hide R.Redact;
    hide Contains;
    hide Lower;
  }

  lemma KindIsLabel(f: Failure, r: Route, seen: Seen)
    ensures R.IsLabel(Diagnose(f, r, seen).kind + ": ")
  {
    KindHasNoSlash(f, r, seen);
    LabelOf(Diagnose(f, r, seen).kind);
  }

  /** A timeout, and nothing else, is answered 504, and its entry says which side was waited for: the origin, once a
      connection to it had been obtained and no hop was under way, else the way there. A refusal is answered 502 with
      the hop's own status. The rest is answered 502 with no status, and a request through a proxy never blames a dial.
      (A hop's error names the phase it struck in, by Connect.DialContext.) */
  lemma AnswersTell(f: Failure, r: Route, seen: Seen)
    requires f.hop.Some? ==> f.hop.value.error.phase != C.Idle
    ensures var d, a := Diagnose(f, r, seen), Told(f, r, seen);
            (a.code == GATEWAY_TIMEOUT <==> a.status.err in ["connection_timeout", "http_response_timeout"]) &&
            (a.code == BAD_GATEWAY || a.code == GATEWAY_TIMEOUT) &&
            (a.status.err == "http_response_timeout" <==>
             Classify(f) == "timeout" && f.hop.None? && seen == Seen(C.Idle, true)) &&
            (Refused(f) <==> a.status.err == "http_request_error") &&
            (if Refused(f) then a.code == BAD_GATEWAY && a.status.received == f.hop.value.error.verdict.value.status
             else a.status.received == 0 && a.status.details == "" && a.hopError.None?) &&
            (r.proxied ==> d.kind != "dial")
  {
    R.RedactionIsComplete("");
  }

  /** And a reader of the entry finds all of that in it. */
  lemma EntryTells(f: Failure, r: Route, seen: Seen)
    requires Refused(f) ==> 0 <= f.hop.value.error.verdict.value.status < 1000
    ensures var s := Told(f, r, seen).status;
            P.Parse(P.Print(s)) == Some(P.Item(P.Token("tip"), P.SeenParams(P.Params(s))))
  {
    var d, s := Diagnose(f, r, seen), Told(f, r, seen).status;
    P.FailureReads(d.kind, PhaseName(d.phase), d.connected, f.facts, s.nextHop, s.received, s.details);
  }

  // The answer, told by the facts of the failure

  /** The error types of a dial and of a handshake. */
  function DialType(f: P.Facts): string {
    if f.dns then "dns_error" else if f.refused then "connection_refused"
    else if f.unroutable then "destination_ip_unroutable" else "destination_unavailable"
  }

  function HandshakeType(f: P.Facts): string {
    if f.certificate then "tls_certificate_error" else if f.alert then "tls_alert_received" else "tls_protocol_error"
  }

  lemma TypesAre(f: P.Facts)
    ensures P.DialErrorType(f) == DialType(f) && P.TlsErrorType(f) == HandshakeType(f)
  {
  }

  /** The text, in lower case, holds one of these. */
  predicate Mentions(text: string, words: seq<string>) {
    exists i :: 0 <= i < |words| && Contains(Lower(text), words[i])
  }

  /** A hop's refusal: 502, the hop's status and line, and its own error type. */
  lemma RefusalIsTold(f: Failure, r: Route, seen: Seen)
    requires f.hop.Some? && f.hop.value.error.verdict.Some?
    ensures var a := Told(f, r, seen);
            a.code == 502 && a.status.err == "http_request_error" &&
            a.status.received == f.hop.value.error.verdict.value.status &&
            a.status.details == R.Redact(f.hop.value.line) &&
            a.error == "proxy_rejected: " + R.SingleLine(R.Redact(f.hop.value.text)) &&
            a.hopError == if a.status.details == "" then None else Some(R.SingleLine(a.status.details))
  {
    assert "proxy_rejected" + ": " == "proxy_rejected: ";
  }

  /** A hop that failed otherwise: a timeout of the way there, or the type of its dial or of its handshake. */
  lemma HopIsTold(f: Failure, r: Route, seen: Seen)
    requires f.hop.Some? && f.hop.value.error.verdict.None? && f.hop.value.error.phase != C.Idle
    ensures var a, over := Told(f, r, seen), f.hop.value.cause.over || f.hop.value.cause.timesOut;
            a.code == (if over then 504 else 502) && a.status.received == 0 && a.status.details == "" &&
            a.status.err == (if over then "connection_timeout"
                             else if f.hop.value.error.phase == C.Tls then HandshakeType(f.facts)
                               else DialType(f.facts)) &&
            a.error == (if over then "timeout: " else "proxy: ") + R.SingleLine(R.Redact(f.hop.value.text))
  {
    TypesAre(f.facts);
    R.RedactionIsComplete("");
    assert "timeout" + ": " == "timeout: " && "proxy" + ": " == "proxy: ";
  }

  /** A timeout beside the hop: of the response once the origin was reached and no hop was under way, else of the way
      there. */
  lemma TimeoutIsTold(f: Failure, r: Route, seen: Seen)
    requires f.hop.None? && (f.cause.over || f.cause.timesOut)
    ensures var a := Told(f, r, seen);
            a.code == 504 && a.status.received == 0 && a.status.details == "" &&
            a.status.err == if seen.memo == C.Idle && seen.connected then "http_response_timeout"
              else "connection_timeout"
  {
    R.RedactionIsComplete("");
  }

  /** Any other failure is told by its own text, proxies before handshakes before dials; and with a proxy on the way, a
      failed dial is the proxy's. */
  lemma OtherIsTold(f: Failure, r: Route, seen: Seen)
    requires f.hop.None? && !f.cause.over && !f.cause.timesOut
    ensures var a, text := Told(f, r, seen), f.cause.text;
            a.code == 502 && a.status.received == 0 && a.status.details == "" && a.hopError.None? &&
            if Mentions(text, ["proxy"]) then Says(a, "proxy: ", text, DialType(f.facts))
            else if Mentions(text, ["tls", "certificate", "handshake"]) then
              Says(a, "tls: ", text, HandshakeType(f.facts))
            else if f.opDial || Mentions(text, ["dial"]) then
              Says(a, if r.proxied then "proxy: " else "dial: ", text, DialType(f.facts))
            else Says(a, "read: ", text, if f.facts.unexpectedEof then "http_response_incomplete"
                      else "connection_terminated")
  {
    MentionsAre(f.cause.text);
    TypesAre(f.facts);
    R.RedactionIsComplete("");
    hide Mentions;
    hide Contains;
    hide DialType;
    hide HandshakeType;
    hide R.Redact;
    hide R.SingleLine;
    assert "proxy" + ": " == "proxy: " && "tls" + ": " == "tls: " && "dial" + ": " == "dial: " &&
           "read" + ": " == "read: ";
  }

  predicate Says(a: Answer, kind: string, text: string, err: string) {
    a.error == kind + R.SingleLine(R.Redact(text)) && a.status.err == err
  }

  lemma MentionsAre(text: string)
    ensures Mentions(text, ["proxy"]) <==> Contains(Lower(text), "proxy")
    ensures Mentions(text, ["dial"]) <==> Contains(Lower(text), "dial")
    ensures Mentions(text, ["tls", "certificate", "handshake"]) <==>
              Contains(Lower(text), "tls") || Contains(Lower(text), "certificate") || Contains(Lower(text), "handshake")
  {
    hide Contains;
    var words := ["tls", "certificate", "handshake"];
    assert words[0] == "tls" && words[1] == "certificate" && words[2] == "handshake";
    assert ["proxy"][0] == "proxy" && ["dial"][0] == "dial";
  }

  /** The next hop is the upstream proxy's host when there is one, else the request's own. */
  lemma NextHopIsTold(f: Failure, r: Route, seen: Seen)
    ensures Told(f, r, seen).status.nextHop ==
              if r.proxied && r.proxyHost.Some? then r.proxyHost.value else r.host
  {
    hide R.Redact;
    hide Classify;
  }

  /** And what it says: the hop phase under way and whom it waited for, or whether the origin was reached. */
  lemma TimeoutSays(f: Failure, r: Route, seen: Seen)
    requires f.hop.None? && (f.cause.over || f.cause.timesOut)
    ensures Told(f, r, seen).error ==
              "timeout: " + R.SingleLine(R.Redact(
                match seen.memo
                case Dial => "proxy-dial: waiting for " + NextHop(r)
                case Tls => "proxy-tls: waiting for " + NextHop(r)
                case Hop => "proxy-connect: waiting for " + NextHop(r)
                case Idle => (if seen.connected then "waiting for response headers from "
                              else "connecting to ") + r.host))
  {
    hide R.Redact;
    hide R.SingleLine;
    hide P.ErrorType;
    assert "timeout" + ": " == "timeout: ";
    Joins("proxy-dial", ": waiting for ", NextHop(r));
    Joins("proxy-tls", ": waiting for ", NextHop(r));
    Joins("proxy-connect", ": waiting for ", NextHop(r));
    assert "proxy-dial" + ": waiting for " == "proxy-dial: waiting for ";
    assert "proxy-tls" + ": waiting for " == "proxy-tls: waiting for ";
    assert "proxy-connect" + ": waiting for " == "proxy-connect: waiting for ";
  }
}
