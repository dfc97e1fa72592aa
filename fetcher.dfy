/** Fetching one page with retries and narrowing it with an optional CSS or
    XPath selector (src/fetcher.ts). The network is an oracle that gives the
    outcome of each numbered attempt; the sleeps are kept as the delays they
    would last. */
module Fetcher {
  import opened Types
  import opened Text

  /** The delay after the first failed attempt, in milliseconds. */
  const BaseDelay: nat := 1000
  /** No delay is longer than this, in milliseconds. */
  const MaxDelay: nat := 10000
  /** The selector prefix that asks for XPath instead of CSS. */
  const XPathPrefix: string := "xpath="
  /** The error when no attempt was made at all. */
  const NoAttemptsError: string := "Max retries exceeded"

  /** What one request gave: it threw (a network failure or the abort on
      timeout), or a response with its status, status text and body, where
      reading the body may itself throw. */
  datatype Attempt = Threw(message: string) | Responded(status: nat, statusText: string, body: Result<string>)

  /** `response.ok` */
  predicate IsOk(status: nat)
  {
    200 <= status <= 299
  }

  function Pow2(k: nat): (r: nat)
    ensures r >= 1
  {
    if k == 0 then 1 else 2 * Pow2(k - 1)
  }

  /** `Math.min(1000 * 2 ** (attempt - 1), 10000)`: the sleep after failed attempt `attempt`. */
  function Backoff(attempt: nat): (r: nat)
    requires attempt >= 1
    ensures 0 < r <= MaxDelay
  {
    var d := BaseDelay * Pow2(attempt - 1);
    if d <= MaxDelay then d else MaxDelay
  }

  /** `s.replace(pat, rep)` with a string pattern: only the first occurrence is replaced. */
  function ReplaceFirst(s: string, pat: string, rep: string): (r: string)
    ensures pat <= s ==> r == rep + s[|pat|..]
    ensures (forall i :: 0 <= i <= |s| ==> !(pat <= s[i..])) ==> r == s
  {
    if pat <= s then
      assert s[0..] == s;
      rep + s[|pat|..]
    else if s == [] then s
    else
      assert forall i :: 0 <= i <= |s[1..]| ==> s[1..][i..] == s[i + 1..];
      [s[0]] + ReplaceFirst(s[1..], pat, rep)
  }

  /** `applyCssSelector`: the raw HTML back when the query throws or matches
      nothing; otherwise the first match's inner HTML if it is non-empty, else
      its text (which is `""` when empty). */
  function ApplyCssSelector(html: string, selector: string, cssSelect: (string, string) -> CssQuery): (r: string)
    ensures cssSelect(html, selector).CssThrew? ==> r == html
    ensures cssSelect(html, selector).CssSelection? && cssSelect(html, selector).nodes == [] ==> r == html
    ensures cssSelect(html, selector).CssSelection? && cssSelect(html, selector).nodes != [] ==>
      var first := cssSelect(html, selector).nodes[0];
      (first.html.Some? && first.html.value != "" ==> r == first.html.value)
      && (first.html == None || first.html == Some("") ==> r == first.text)
  {
    match cssSelect(html, selector)
    case CssThrew => html
    case CssSelection(nodes) =>
      if nodes == [] then html
      else if nodes[0].html.Some? && nodes[0].html.value != "" then nodes[0].html.value
      else if nodes[0].text != "" then nodes[0].text
      else ""
  }

  /** `applyXPathSelector`: the raw HTML back when the query throws, gives a
      value that is not a node list, or gives an empty one; otherwise the
      first node's text content if non-empty, else its serialised form if
      non-empty, else `""`. */
  function ApplyXPathSelector(html: string, expr: string, xpathSelect: (string, string) -> XPathQuery): (r: string)
    ensures !xpathSelect(html, expr).XPathNodes? ==> r == html
    ensures xpathSelect(html, expr).XPathNodes? && xpathSelect(html, expr).nodes == [] ==> r == html
    ensures xpathSelect(html, expr).XPathNodes? && xpathSelect(html, expr).nodes != [] ==>
      var first := xpathSelect(html, expr).nodes[0];
      (first.textContent.Some? && first.textContent.value != "" ==> r == first.textContent.value)
      && (first.textContent == None || first.textContent == Some("") ==> r == first.serialized)
  {
    match xpathSelect(html, expr)
    case XPathNodes(nodes) =>
      if nodes == [] then html
      else if nodes[0].textContent.Some? && nodes[0].textContent.value != "" then nodes[0].textContent.value
      else if nodes[0].serialized != "" then nodes[0].serialized
      else ""
    case _ => html
  }

  /** The selector dispatch: `xpath=` goes to XPath with the prefix removed,
      any other non-empty selector to CSS, and no selector (or `""`) keeps
      the content. */
  function ApplySelector(content: string, selector: Option<string>, libs: Libraries): (r: string)
    ensures selector.Some? && XPathPrefix <= selector.value ==>
      r == ApplyXPathSelector(content, selector.value[|XPathPrefix|..], libs.xpathSelect)
    ensures selector.Some? && selector.value != "" && !(XPathPrefix <= selector.value) ==>
      r == ApplyCssSelector(content, selector.value, libs.cssSelect)
    ensures selector == None || selector == Some("") ==> r == content
  {
    if selector.Some? && XPathPrefix <= selector.value then
      assert "" + selector.value[|XPathPrefix|..] == selector.value[|XPathPrefix|..];
      ApplyXPathSelector(content, ReplaceFirst(selector.value, XPathPrefix, ""), libs.xpathSelect)
    else if selector.Some? && selector.value != "" then
      ApplyCssSelector(content, selector.value, libs.cssSelect)
    else content
  }

  /** The message of the Error thrown for a response that is not OK. */
  function HttpError(status: nat, statusText: string): string
  {
    "HTTP " + NatToString(status) + ": " + statusText
  }

  /** The body of the `try`: the fetch result of a successful attempt, or
      the message of what it threw. */
  function AttemptResult(a: Attempt, selector: Option<string>, libs: Libraries): Result<FetchResult>
  {
    match a
    case Threw(m) => Err(m)
    case Responded(status, statusText, body) =>
      if !IsOk(status) then Err(HttpError(status, statusText))
      else match body
        case Err(m) => Err(m)
        case Ok(text) => Ok(FetchResult(ApplySelector(text, selector, libs), status, None))
  }

  /** What a run of the retry loop amounts to: the returned result, the
      number of attempts made and the delays slept, in order. */
  datatype FetchRun = FetchRun(result: FetchResult, made: nat, delays: seq<nat>)

  /** The result of each numbered attempt, as the body of the `try` gives it. */
  function Attempts(outcome: nat -> Attempt, selector: Option<string>, libs: Libraries): nat -> Result<FetchResult>
  {
    (j: nat) => AttemptResult(outcome(j), selector, libs)
  }

  /** The loop from attempt number `attempt` on, given the result of every
      attempt. */
  function FetchFrom(attempt: nat, retries: int, tried: nat -> Result<FetchResult>): FetchRun
    requires attempt >= 1
    decreases retries - attempt
  {
    if attempt > retries then FetchRun(FetchResult("", 0, Some(NoAttemptsError)), 0, [])
    else
      match tried(attempt)
      case Ok(res) => FetchRun(res, 1, [])
      case Err(m) =>
        if attempt == retries then FetchRun(FetchResult("", 0, Some(m)), 1, [])
        else
          var rest := FetchFrom(attempt + 1, retries, tried);
          FetchRun(rest.result, rest.made + 1, [Backoff(attempt)] + rest.delays)
  }

  /** `fetchWithRetry` as a function of the attempt results. */
  function Fetch(retries: int, tried: nat -> Result<FetchResult>): FetchRun
  {
    FetchFrom(1, retries, tried)
  }

  /** The body of the `try` for one attempt: a non-OK status throws, else
      the body is read and narrowed by the selector. */
  method TryAttempt(a: Attempt, selector: Option<string>, libs: Libraries) returns (r: Result<FetchResult>)
    ensures r == AttemptResult(a, selector, libs)
  {
    match a {
      case Threw(m) =>
        return Err(m);
      case Responded(status, statusText, body) =>
        if !IsOk(status) {
          return Err(HttpError(status, statusText));
        }
        match body {
          case Err(m) =>
            return Err(m);
          case Ok(text) =>
            return Ok(FetchResult(ApplySelector(text, selector, libs), status, None));
        }
    }
  }

  /** `fetchWithRetry`: tries up to `retries` times, returning the first
      success, or the last failure's message; `delays` are the sleeps
      between attempts. */
  method FetchWithRetry(website: Website, retries: int, outcome: nat -> Attempt, libs: Libraries)
    returns (result: FetchResult, delays: seq<nat>)
    ensures result == Fetch(retries, Attempts(outcome, website.selector, libs)).result
    ensures delays == Fetch(retries, Attempts(outcome, website.selector, libs)).delays
  {
    var selector := website.selector;
    ghost var results := Attempts(outcome, selector, libs);
    ghost var total := Fetch(retries, results);
    delays := [];
    var attempt: nat := 1;
    while attempt <= retries
      invariant attempt >= 1
      invariant var rest := FetchFrom(attempt, retries, results);
        total.result == rest.result && total.delays == delays + rest.delays
      decreases retries - attempt
    {
      var answer := TryAttempt(outcome(attempt), selector, libs);
      assert results(attempt) == answer;
      FetchFromStops(attempt, retries, results);
      if answer.Ok? {
        result := answer.value;
        return;
      }
      if attempt == retries {
        result := FetchResult("", 0, Some(answer.message));
        return;
      }
      var delay := Backoff(attempt);
      ghost var rest := FetchFrom(attempt + 1, retries, results);
      FetchFromFailure(attempt, retries, results);
      assert delays + ([delay] + rest.delays) == (delays + [delay]) + rest.delays;
      delays := delays + [delay];
      attempt := attempt + 1;
    }
    result := FetchResult("", 0, Some(NoAttemptsError));
  }

  /** The sleeps after failed attempts `first` .. `first + k - 1`. */
  function Waits(first: nat, k: nat): (r: seq<nat>)
    requires first >= 1
    ensures |r| == k
  {
    seq<nat>(k, j requires 0 <= j < k => Backoff(first + j))
  }

  lemma WaitsCons(first: nat, k: nat)
    requires first >= 1 && k >= 1
    ensures Waits(first, k) == [Backoff(first)] + Waits(first + 1, k - 1)
  {
  }

  /** With fewer than one retry allowed no attempt is made and the error is
      `Max retries exceeded`. */
  lemma NoRetriesNoAttempt(retries: int, tried: nat -> Result<FetchResult>)
    requires retries < 1
    ensures Fetch(retries, tried) == FetchRun(FetchResult("", 0, Some(NoAttemptsError)), 0, [])
  {
  }

  /** A successful attempt ends the loop, and so does a failed last one. */
  lemma FetchFromStops(attempt: nat, retries: int, tried: nat -> Result<FetchResult>)
    requires 1 <= attempt <= retries
    ensures tried(attempt).Ok? ==> FetchFrom(attempt, retries, tried) == FetchRun(tried(attempt).value, 1, [])
    ensures tried(attempt).Err? && attempt == retries ==>
      FetchFrom(attempt, retries, tried) == FetchRun(FetchResult("", 0, Some(tried(attempt).message)), 1, [])
  {
  }

  /** A failed attempt before the last one sleeps and goes on. */
  lemma FetchFromFailure(attempt: nat, retries: int, tried: nat -> Result<FetchResult>)
    requires 1 <= attempt < retries
    requires tried(attempt).Err?
    ensures var rest := FetchFrom(attempt + 1, retries, tried);
      FetchFrom(attempt, retries, tried) == FetchRun(rest.result, rest.made + 1, [Backoff(attempt)] + rest.delays)
  {
  }

  lemma {:induction false} FirstSuccessFrom(attempt: nat, k: nat, retries: int, tried: nat -> Result<FetchResult>)
    requires 1 <= attempt <= k <= retries
    requires forall j :: attempt <= j < k ==> tried(j).Err?
    requires tried(k).Ok?
    ensures FetchFrom(attempt, retries, tried) == FetchRun(tried(k).value, k - attempt + 1, Waits(attempt, k - attempt))
    decreases k - attempt
  {
    if attempt < k {
      FetchFromFailure(attempt, retries, tried);
      FirstSuccessFrom(attempt + 1, k, retries, tried);
      WaitsCons(attempt, k - attempt);
    } else {
      assert Waits(attempt, 0) == [];
    }
  }

  /** The first successful attempt `k` ends the loop: its result is returned
      after exactly `k` attempts and `k - 1` sleeps. */
  lemma FirstSuccessWins(k: nat, retries: int, tried: nat -> Result<FetchResult>)
    requires 1 <= k <= retries
    requires forall j :: 1 <= j < k ==> tried(j).Err?
    requires tried(k).Ok?
    ensures Fetch(retries, tried) == FetchRun(tried(k).value, k, Waits(1, k - 1))
  {
    FirstSuccessFrom(1, k, retries, tried);
  }

  lemma {:induction false} AllFailFrom(attempt: nat, retries: int, tried: nat -> Result<FetchResult>)
    requires 1 <= attempt <= retries
    requires forall j :: attempt <= j <= retries ==> tried(j).Err?
    ensures FetchFrom(attempt, retries, tried)
      == FetchRun(FetchResult("", 0, Some(tried(retries).message)), retries - attempt + 1, Waits(attempt, retries - attempt))
    decreases retries - attempt
  {
    if attempt < retries {
      FetchFromFailure(attempt, retries, tried);
      AllFailFrom(attempt + 1, retries, tried);
      WaitsCons(attempt, retries - attempt);
    }
  }

  /** When every attempt fails, all `retries` are made, with a sleep after
      each but the last, and the result is empty content, status 0 and the
      last attempt's message. */
  lemma AllAttemptsFail(retries: int, tried: nat -> Result<FetchResult>)
    requires retries >= 1
    requires forall j :: 1 <= j <= retries ==> tried(j).Err?
    ensures Fetch(retries, tried)
      == FetchRun(FetchResult("", 0, Some(tried(retries).message)), retries, Waits(1, retries - 1))
  {
    AllFailFrom(1, retries, tried);
  }

  /** From any attempt on, the loop makes no attempt exactly when none is
      left; otherwise it stops within the allowance, after a sleep per
      failed attempt but the last, and returns what the last attempt made
      gave, or that attempt's message when it was the final one and failed. */
  lemma {:induction false} FetchFromShape(attempt: nat, retries: int, tried: nat -> Result<FetchResult>)
    requires attempt >= 1
    ensures var r := FetchFrom(attempt, retries, tried);
      && (r.made == 0 <==> attempt > retries)
      && (r.made == 0 ==> r.result == FetchResult("", 0, Some(NoAttemptsError)) && r.delays == [])
      && (r.made > 0 ==> attempt + r.made - 1 <= retries && |r.delays| == r.made - 1)
      && (forall j :: 0 <= j < |r.delays| ==> r.delays[j] == Backoff(attempt + j))
      && (r.made > 0 ==>
            var last := tried(attempt + r.made - 1);
            (last.Ok? ==> r.result == last.value)
            && (last.Err? ==> attempt + r.made - 1 == retries && r.result == FetchResult("", 0, Some(last.message))))
    decreases retries - attempt
  {
    if attempt <= retries && tried(attempt).Err? && attempt < retries {
      FetchFromShape(attempt + 1, retries, tried);
    }
  }

  /** A result without an error comes from a successful attempt: the last one made. */
  lemma SuccessComesFromLastAttempt(retries: int, tried: nat -> Result<FetchResult>)
    ensures var r := Fetch(retries, tried);
      r.result.error == None ==> r.made >= 1 && tried(r.made) == Ok(r.result)
  {
    FetchFromShape(1, retries, tried);
  }

  /** An attempt succeeds exactly when it got an OK response whose body
      could be read; its content is the body narrowed by the selector and
      its status the response's. A non-OK response fails with a message
      naming the status, and anything thrown fails with its own message. */
  lemma AttemptCases(a: Attempt, selector: Option<string>, libs: Libraries)
    ensures var r := AttemptResult(a, selector, libs);
      && (r.Ok? <==> a.Responded? && IsOk(a.status) && a.body.Ok?)
      && (r.Ok? ==> r.value == FetchResult(ApplySelector(a.body.value, selector, libs), a.status, None))
      && (a.Threw? ==> r == Err(a.message))
      && (a.Responded? && !IsOk(a.status) ==> r == Err("HTTP " + NatToString(a.status) + ": " + a.statusText))
      && (a.Responded? && IsOk(a.status) && a.body.Err? ==> r == Err(a.body.message))
  {
  }

  lemma {:induction false} Pow2Monotone(j: nat, k: nat)
    requires j <= k
    ensures Pow2(j) <= Pow2(k)
    decreases k - j
  {
    if j < k {
      Pow2Monotone(j, k - 1);
    }
  }

  /** Later attempts never wait less. */
  lemma BackoffMonotone(j: nat, k: nat)
    requires 1 <= j <= k
    ensures Backoff(j) <= Backoff(k)
  {
    Pow2Monotone(j - 1, k - 1);
  }

  /** The delay doubles until it reaches the cap: 1, 2, 4, 8 seconds, then 10
      seconds from the fifth attempt on. */
  lemma BackoffSchedule(k: nat)
    requires k >= 1
    ensures Backoff(k + 1) == if 2 * Backoff(k) <= MaxDelay then 2 * Backoff(k) else MaxDelay
    ensures k >= 5 ==> Backoff(k) == MaxDelay
  {
    if k >= 5 {
      Pow2Monotone(4, k - 1);
      assert Pow2(4) == 16;
    }
  }
}
