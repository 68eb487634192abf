/**
 * Two helpers of the web page: `_prepare_for_execute`, the last text check before
 * the database call, and `_get_client_key`, the key the rate limiter counts under.
 */
module AppGuards {
  import opened Wrappers
  import opened Text

  predicate AllSemicolons(s: string) {
    forall i :: 0 <= i < |s| ==> s[i] == ';'
  }

  /**
   * `re.sub(r";+\s*$", "", s)`: a run of semicolons followed by nothing but
   * whitespace up to the end is removed together with that whitespace; a text
   * without such a run is left as it is.
   */
  function DropTrailingSemicolons(s: string): (r: string)
    ensures StartsWith(s, r)
    ensures r != s ==> r == [] || r[|r| - 1] != ';'
    ensures r != s ==> exists k :: |r| < k <= |s| && AllSemicolons(s[|r|..k]) && AllSpace(s[k..])
    ensures r == s <==> (var t := TrimRight(s); t == [] || t[|t| - 1] != ';')
  {
    var t := TrimRight(s);
    var u := RStripChar(t, ';');
    if |u| < |t| then
      assert s[..|u|] == u;
      assert AllSemicolons(s[|u|..|t|]) by {
        assert forall i :: 0 <= i < |t| - |u| ==> s[|u|..|t|][i] == t[|u| + i];
      }
      assert AllSpace(s[|t|..]) by {
        assert forall i :: 0 <= i < |s| - |t| ==> s[|t|..][i] == s[|t| + i];
      }
      u
    else s
  }

  /** On text that does not end in whitespace the substitution removes exactly the trailing semicolons. */
  lemma SubstitutionOnStripped(s: string)
    requires s == [] || !IsSpace(s[|s| - 1])
    ensures DropTrailingSemicolons(s) == RStripChar(s, ';')
  {
    assert TrimRight(s) == s;
  }

  const MultipleStatementsMessage: string := "Multiple statements detected (semicolon in the middle)."

  /**
   * `_prepare_for_execute(sql)`: the text (`None` read as empty) stripped, its trailing
   * semicolons removed, and refused when a semicolon is left.
   */
  function PrepareForExecute(sql: Option<string>): (r: Result<string, string>)
    ensures var s := Strip(sql.GetOr(""));
      && (r.Ok? ==> StartsWith(s, r.value) && ';' !in r.value && forall i :: |r.value| <= i < |s| ==> s[i] == ';')
      && (r.Err? ==> r.error == MultipleStatementsMessage)
  {
    var s := Strip(sql.GetOr(""));
    SubstitutionOnStripped(s);
    var t := DropTrailingSemicolons(s);
    if ';' in t then Err(MultipleStatementsMessage) else Ok(t)
  }

  /** A missing text and an empty one are both executed as the empty text. */
  lemma MissingTextIsEmpty()
    ensures PrepareForExecute(None) == Ok("")
    ensures PrepareForExecute(Some("")) == Ok("")
  {
  }

  /**
   * The text is accepted exactly when every semicolon in it (after stripping) is
   * followed by semicolons only, and then the trailing semicolons are all that is
   * removed.
   */
  lemma PrepareVerdict(sql: Option<string>)
    ensures var s := Strip(sql.GetOr(""));
      var r := PrepareForExecute(sql);
      && (r.Ok? <==> forall i, j :: 0 <= i < j < |s| && s[i] == ';' ==> s[j] == ';')
      && (r.Ok? ==> r.value == RStripChar(s, ';'))
  {
    var s := Strip(sql.GetOr(""));
    SubstitutionOnStripped(s);
    var u := RStripChar(s, ';');
    if ';' in u {
      var i :| 0 <= i < |u| && u[i] == ';';
      assert s[i] == ';' && s[|u| - 1] != ';';
    } else {
      assert forall i :: 0 <= i < |u| ==> u[i] == s[i];
    }
  }

  /** A statement with any number of terminating semicolons is executed as the bare statement. */
  lemma PrepareTerminated(stmt: string, semicolons: nat)
    requires stmt != [] && !IsSpace(stmt[0]) && !IsSpace(stmt[|stmt| - 1])
    requires ';' !in stmt
    ensures PrepareForExecute(Some(stmt + seq(semicolons, _ => ';'))) == Ok(stmt)
  {
    var s := stmt + seq(semicolons, _ => ';');
    assert s[0] == stmt[0];
    StripUnpadded(s);
    PrepareVerdict(Some(s));
    var u := RStripChar(s, ';');
    assert s[|stmt| - 1] == stmt[|stmt| - 1];
    assert forall i :: |stmt| <= i < |s| ==> s[i] == ';';
    assert |u| > 0 ==> u[|u| - 1] == s[|u| - 1];
    assert u == s[..|stmt|] == stmt;
  }

  /** `a;;` is run as `a`: the final run of semicolons is removed. */
  lemma TerminatedExample()
    ensures PrepareForExecute(Some("a;;")) == Ok("a")
  {
    PrepareTerminated("a", 2);
    assert "a" + seq(2, _ => ';') == "a;;";
  }

  /** `a; ;` is refused: only the last semicolon is in the final run, so the one before the space remains. */
  lemma SpacedSemicolonsExample()
    ensures PrepareForExecute(Some("a; ;")) == Err(MultipleStatementsMessage)
  {
    var t := "a; ;";
    StripUnpadded(t);
    SubstitutionOnStripped(t);
    assert t[..3] == "a; ";
    assert RStripChar(t, ';') == "a; ";
    assert "a; "[1] == ';';
  }

  /** Text that does not end in a semicolon is refused as soon as it holds one. */
  lemma InnerSemicolonRefused(sql: string, i: nat)
    requires sql != [] && !IsSpace(sql[0]) && !IsSpace(sql[|sql| - 1]) && sql[|sql| - 1] != ';'
    requires i < |sql| && sql[i] == ';'
    ensures PrepareForExecute(Some(sql)) == Err(MultipleStatementsMessage)
  {
    StripUnpadded(sql);
    SubstitutionOnStripped(sql);
  }

  /** A second statement after a semicolon is refused. */
  lemma SecondStatementExample()
    ensures PrepareForExecute(Some("SELECT 1; DROP TABLE STUDENT")) == Err(MultipleStatementsMessage)
  {
    InnerSemicolonRefused("SELECT 1; DROP TABLE STUDENT", 8);
  }

  /** `headers.get(name)`, a missing entry read as the empty (false) text. */
  function Header(headers: map<string, string>, name: string): string {
    if name in headers then headers[name] else ""
  }

  /** `a or b` on texts. */
  function Or(a: string, b: string): string {
    if a != "" then a else b
  }

  /** The address a proxy reports: the forwarded-for header (lower case first, then the capitalised spelling), else the real-ip header in the same way. */
  function ReportedAddress(headers: map<string, string>): string {
    Or(Or(Header(headers, "x-forwarded-for"), Header(headers, "X-Forwarded-For")),
       Or(Header(headers, "x-real-ip"), Header(headers, "X-Real-Ip")))
  }

  /**
   * `_get_client_key()`: the first comma-separated field of the reported address,
   * stripped, or the session's identifier when that is blank or the headers could
   * not be read (`None`).
   */
  function ClientKey(headers: Option<map<string, string>>, sessionId: string): (key: string)
    ensures headers.None? ==> key == sessionId
    ensures headers.Some? ==>
      var first := FirstField(ReportedAddress(headers.value), ',');
      key == if AllSpace(first) then sessionId else Strip(first)
    ensures key != sessionId ==> key != "" && ',' !in key && !IsSpace(key[0]) && !IsSpace(key[|key| - 1])
  {
    if headers.None? then sessionId
    else
      var ip := ReportedAddress(headers.value);
      var first := if ip != "" then Strip(FirstField(ip, ',')) else ip;
      StripKeepsOut(FirstField(ip, ','), ',');
      Or(first, sessionId)
  }

  /**
   * The forwarded-for value (the lower-case header, or the capitalised one when that
   * is missing or empty) decides the key whenever it is not empty: the real-ip
   * headers and everything else sent do not matter.
   */
  lemma ForwardedForDecides(h1: map<string, string>, h2: map<string, string>, sessionId: string)
    requires Or(Header(h1, "x-forwarded-for"), Header(h1, "X-Forwarded-For")) != ""
    requires Or(Header(h1, "x-forwarded-for"), Header(h1, "X-Forwarded-For"))
          == Or(Header(h2, "x-forwarded-for"), Header(h2, "X-Forwarded-For"))
    ensures ClientKey(Some(h1), sessionId) == ClientKey(Some(h2), sessionId)
  {
  }

  /** The first field of a hop followed by nothing, or by a comma and more hops, is that hop. */
  lemma FirstHop(hop: string, rest: string)
    requires ',' !in hop && (rest == [] || rest[0] == ',')
    ensures FirstField(hop + rest, ',') == hop
  {
    if rest == [] {
      assert hop + rest == hop;
    } else {
      assert hop + rest == hop + [','] + rest[1..];
      FirstFieldOf(hop, ',', rest[1..]);
    }
  }

  /**
   * The key is the first hop of the forwarded-for list, with its surrounding spaces
   * removed, for a single address as for a list.
   */
  lemma FirstHopIsKey(headers: map<string, string>, hop: string, rest: string, sessionId: string)
    requires "x-forwarded-for" in headers && headers["x-forwarded-for"] == hop + rest
    requires ',' !in hop && !AllSpace(hop) && (rest == [] || rest[0] == ',')
    ensures ClientKey(Some(headers), sessionId) == Strip(hop)
  {
    FirstHop(hop, rest);
  }

  /**
   * A forwarded-for header whose first field is blank, alone or followed by other
   * hops, falls back to the session: the real-ip headers are not consulted.
   */
  lemma BlankFirstHopFallsBack(headers: map<string, string>, hop: string, rest: string, sessionId: string)
    requires "x-forwarded-for" in headers && headers["x-forwarded-for"] == hop + rest
    requires hop + rest != "" && ',' !in hop && AllSpace(hop) && (rest == [] || rest[0] == ',')
    ensures ClientKey(Some(headers), sessionId) == sessionId
  {
    FirstHop(hop, rest);
  }

  /**
   * Without a forwarded-for header in either spelling, the real-ip header (the
   * lower-case one, else the capitalised one) gives the key.
   */
  lemma RealIpFallback(headers: map<string, string>, hop: string, rest: string, sessionId: string)
    requires Header(headers, "x-forwarded-for") == "" && Header(headers, "X-Forwarded-For") == ""
    requires Or(Header(headers, "x-real-ip"), Header(headers, "X-Real-Ip")) == hop + rest
    requires ',' !in hop && !AllSpace(hop) && (rest == [] || rest[0] == ',')
    ensures ClientKey(Some(headers), sessionId) == Strip(hop)
  {
    FirstHop(hop, rest);
  }

  /** With no address header at all the key is the session's identifier. */
  lemma NoAddressIsSession(headers: map<string, string>, sessionId: string)
    requires Header(headers, "x-forwarded-for") == "" && Header(headers, "X-Forwarded-For") == ""
    requires Header(headers, "x-real-ip") == "" && Header(headers, "X-Real-Ip") == ""
    ensures ClientKey(Some(headers), sessionId) == sessionId
  {
  }
}
