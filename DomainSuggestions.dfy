/** The domain-suggestion hook: a free-text query is normalised to a keyword,
    expanded over the preferred suffixes, each candidate is checked by the
    domain-check function, and the per-candidate outcomes are merged, in
    candidate order, into the hook's `{loading, error, items}` state. */
module DomainSuggestions {
  import opened Text

  const FavoriteTlds: seq<string> := [".com", ".id", ".co.id"]
  const MaxCandidates: nat := 10

  // ---------------------------------------------------------------------
  // Keyword and candidates

  /** The query trimmed, lowercased, without a leading `http://`/`https://`,
      without one trailing `/`, and with all whitespace removed. */
  function CleanQuery(raw: string): string
  {
    RemoveSpaces(DropLast(DropScheme(ToLower(Trim(raw))), '/'))
  }

  /** The cleaned query has no whitespace and no capitals. */
  lemma CleanQueryIsClean(raw: string)
    ensures NoSpace(CleanQuery(raw)) && NoUpper(CleanQuery(raw))
  {
    var lowered := ToLower(Trim(raw));
    var unschemed := DropScheme(lowered);
    var unslashed := DropLast(unschemed, '/');
    assert NoUpper(unslashed) by {
      forall i | 0 <= i < |unslashed| ensures !IsUpper(unslashed[i]) {
        assert unslashed[i] == lowered[|lowered| - |unschemed| + i];
      }
    }
    RemoveSpacesClean(unslashed);
  }

  /** `normalizeKeyword`: the cleaned query up to its first dot, so a typed
      top-level domain is discarded. */
  function NormalizeKeyword(raw: string): (k: string)
    ensures k == BeforeFirst(CleanQuery(raw), '.')
  {
    var v := CleanQuery(raw);
    if |v| == 0 then ""
    else if '.' in v then BeforeFirst(v, '.')
    else v
  }

  /** The keyword is a dot-free prefix of the cleaned query, the whole of it
      when the query has no dot, and is itself clean. */
  lemma KeywordIsCleanPrefix(raw: string)
    ensures var k := NormalizeKeyword(raw); var v := CleanQuery(raw);
      && |k| <= |v| && k == v[..|k|] && '.' !in k
      && (k == v || v[|k|] == '.')
      && ('.' !in v ==> k == v)
      && NoSpace(k) && NoUpper(k)
  {
    var k := NormalizeKeyword(raw);
    var v := CleanQuery(raw);
    CleanQueryIsClean(raw);
    BeforeFirstHasNoSeparator(v, '.');
    forall i | 0 <= i < |k| ensures k[i] == v[i] { }
  }

  /** A query whose cleaned form has no dot is its own keyword. */
  lemma KeywordOfDotless(raw: string)
    requires '.' !in CleanQuery(raw)
    ensures NormalizeKeyword(raw) == CleanQuery(raw)
  {
    BeforeFirstHasNoSeparator(CleanQuery(raw), '.');
  }

  /** A blank query gives no keyword. */
  lemma BlankQueryGivesEmptyKeyword(raw: string)
    requires forall i :: 0 <= i < |raw| ==> IsSpace(raw[i])
    ensures NormalizeKeyword(raw) == ""
  {
    TrimAllSpaces(raw);
    assert ToLower(Trim(raw)) == "";
  }

  /** Normalising is not idempotent: a second pass may strip a scheme that the
      first pass only assembled by removing whitespace. For example
      `"http:/ /x"` normalises to `"http://x"`, and that to `"x"`. */
  lemma NormalizeKeywordNotIdempotent(rest: string)
    requires |rest| > 0 && rest[|rest| - 1] != '/' && '.' !in rest
    requires NoSpace(rest) && NoUpper(rest)
    ensures NormalizeKeyword("http:/ /" + rest) == "http://" + rest
    ensures NormalizeKeyword(NormalizeKeyword("http:/ /" + rest)) == rest
  {
    KeywordOfSpacedScheme(rest);
    KeywordOfScheme(rest);
  }

  lemma KeywordOfSpacedScheme(rest: string)
    requires |rest| > 0 && rest[|rest| - 1] != '/' && '.' !in rest
    requires NoSpace(rest) && NoUpper(rest)
    ensures NormalizeKeyword("http:/ /" + rest) == "http://" + rest
  {
    SpacedSchemeSpelling(rest);
    CleanSpacedScheme("/" + rest);
    KeywordOfDotless("http:/ /" + rest);
  }

  /** How the two queries of the non-idempotence example are spelled. */
  lemma SpacedSchemeSpelling(rest: string)
    requires |rest| > 0 && rest[|rest| - 1] != '/' && '.' !in rest
    requires NoSpace(rest) && NoUpper(rest)
    ensures var slashed := "/" + rest;
      && |slashed| >= 2 && slashed[0] == '/' && slashed[|slashed| - 1] != '/'
      && NoSpace(slashed) && NoUpper(slashed)
      && "http:/" + " " + slashed == "http:/ /" + rest
      && "http:/" + slashed == "http://" + rest
      && '.' !in "http://" + rest
  {
    var slashed := "/" + rest;
    forall i | 1 <= i < |slashed| ensures slashed[i] == rest[i - 1] { }
    var q := "http://" + rest;
    forall i | 0 <= i < |q| ensures q[i] != '.' {
      if i >= 7 {
        assert q[i] == rest[i - 7];
      }
    }
  }

  lemma KeywordOfScheme(rest: string)
    requires |rest| > 0 && rest[|rest| - 1] != '/' && '.' !in rest
    requires NoSpace(rest) && NoUpper(rest)
    ensures NormalizeKeyword("http://" + rest) == rest
  {
    CleanScheme(rest);
    KeywordOfDotless("http://" + rest);
  }

  /** A query that spells `http:/`, a blank, then a slash-led rest: no scheme
      is recognised, and removing the blank assembles one. */
  lemma CleanSpacedScheme(rest: string)
    requires |rest| >= 2 && rest[0] == '/' && rest[|rest| - 1] != '/'
    requires NoSpace(rest) && NoUpper(rest)
    ensures CleanQuery("http:/" + " " + rest) == "http:/" + rest
  {
    var raw := "http:/" + " " + rest;
    assert raw[..7] == "http:/ ";
    NoSchemeAfterSpace(raw);
    assert NoUpper(raw) by {
      forall i | 0 <= i < |raw| ensures !IsUpper(raw[i]) {
        if i >= 7 {
          assert raw[i] == rest[i - 7];
        }
      }
    }
    assert raw[|raw| - 1] == rest[|rest| - 1];
    CleanedQuery(raw, raw);
    HalfSchemeHasNoSpace();
    RemoveOneSpace("http:/", rest);
  }

  /** A query led by `http://`: the scheme is dropped. */
  lemma CleanScheme(rest: string)
    requires |rest| > 0 && rest[|rest| - 1] != '/'
    requires NoSpace(rest) && NoUpper(rest)
    ensures CleanQuery("http://" + rest) == rest
  {
    var raw := "http://" + rest;
    assert StartsWith(raw, "http://");
    assert raw[7..] == rest;
    assert NoUpper(raw) by {
      forall i | 0 <= i < |raw| ensures !IsUpper(raw[i]) {
        if i >= 7 {
          assert raw[i] == rest[i - 7];
        }
      }
    }
    assert raw[|raw| - 1] == rest[|rest| - 1];
    CleanedQuery(raw, rest);
    RemoveSpacesClean(rest);
  }

  lemma HalfSchemeHasNoSpace()
    ensures NoSpace("http:/")
  {
  }

  lemma RemoveOneSpace(a: string, b: string)
    requires NoSpace(a) && NoSpace(b)
    ensures RemoveSpaces(a + " " + b) == a + b
  {
    assert a + " " + b == a + ([' '] + b);
    RemoveSpacesAppend(a, [' '] + b);
    assert ([' '] + b)[1..] == b;
    RemoveSpacesClean(a);
    RemoveSpacesClean(b);
  }

  /** `http:/` followed by a blank is no scheme. */
  lemma NoSchemeAfterSpace(raw: string)
    requires |raw| >= 8 && raw[..7] == "http:/ "
    ensures DropScheme(raw) == raw
  {
    assert raw[..7][6] != "http://"[6];
    assert raw[..8][4] != "https://"[4];
  }

  /** The cleaning of a query that is already trimmed and lowercase. */
  lemma CleanedQuery(raw: string, unschemed: string)
    requires |raw| == 0 || (!IsSpace(raw[0]) && !IsSpace(raw[|raw| - 1]))
    requires NoUpper(raw)
    requires DropScheme(raw) == unschemed
    ensures CleanQuery(raw) == RemoveSpaces(DropLast(unschemed, '/'))
  {
    TrimUnchanged(raw);
    ToLowerUnchanged(raw);
  }

  lemma {:induction false} RemoveSpacesAppend(a: string, b: string)
    ensures RemoveSpaces(a + b) == RemoveSpaces(a) + RemoveSpaces(b)
    decreases |a|
  {
    if |a| > 0 {
      assert (a + b)[1..] == a[1..] + b;
      RemoveSpacesAppend(a[1..], b);
    } else {
      assert a + b == b;
    }
  }

  /** `buildCandidates`: the keyword, normalised once more, with each
      preferred suffix in order, at most ten. */
  function BuildCandidates(keyword: string): (cs: seq<string>)
    ensures |cs| <= MaxCandidates && |cs| <= |FavoriteTlds|
    ensures forall i :: 0 <= i < |cs| ==> cs[i] == NormalizeKeyword(keyword) + FavoriteTlds[i]
  {
    var k := NormalizeKeyword(keyword);
    if k == "" then []
    else
      var all := seq(|FavoriteTlds|, i requires 0 <= i < |FavoriteTlds| => k + FavoriteTlds[i]);
      all[..if |all| < MaxCandidates then |all| else MaxCandidates]
  }

  /** There are no candidates exactly when the keyword normalises to
      nothing; otherwise there is one per preferred suffix. */
  lemma CandidatesOfKeyword(keyword: string)
    ensures var k := NormalizeKeyword(keyword);
      BuildCandidates(keyword) == if k == "" then [] else [k + ".com", k + ".id", k + ".co.id"]
  {
  }

  /** The hook normalises twice (`buildCandidates(normalizeKeyword(query))`),
      so a non-empty keyword can still give no candidates: `"http:/ //"`
      normalises to `"http://"`, which normalises to nothing. */
  lemma NonEmptyKeywordWithoutCandidates(query: string)
    requires query == "http:/ //"
    ensures NormalizeKeyword(query) == "http://"
    ensures BuildCandidates(NormalizeKeyword(query)) == []
  {
    KeywordOfSpacedSlashes(query);
    KeywordOfBareScheme("http://");
  }

  lemma KeywordOfSpacedSlashes(query: string)
    requires query == "http:/ //"
    ensures NormalizeKeyword(query) == "http://"
  {
    SpacedSlashesSpelling(query);
    NoSchemeAfterSpace(query);
    CleanedQuery(query, query);
    RemoveOneSpace("http:/", "/");
    KeywordOfDotless(query);
  }

  lemma SpacedSlashesSpelling(query: string)
    requires query == "http:/ //"
    ensures |query| >= 8 && query[..7] == "http:/ "
    ensures NoUpper(query) && !IsSpace(query[0]) && !IsSpace(query[|query| - 1])
    ensures DropLast(query, '/') == "http:/" + " " + "/"
    ensures NoSpace("http:/") && NoSpace("/")
    ensures "http:/" + "/" == "http://" && '.' !in "http://"
  {
  }

  lemma KeywordOfBareScheme(k: string)
    requires k == "http://"
    ensures NormalizeKeyword(k) == ""
  {
    assert |k| == 7 && StartsWith(k, "http://");
    assert NoUpper(k) && !IsSpace(k[0]) && !IsSpace(k[6]);
    CleanedQuery(k, "");
  }

  // ---------------------------------------------------------------------
  // Per-candidate outcome

  datatype Status = Available | Unavailable | Premium | Blocked | Unknown

  /** `statusFromResult`. */
  function StatusFromResult(s: string): (st: Status)
    ensures st == Available <==> s == "available"
    ensures st == Unavailable <==> s == "unavailable"
    ensures st == Unknown <==> (s != "available" && s != "unavailable")
  {
    if s == "available" then Available
    else if s == "unavailable" then Unavailable
    else Unknown
  }

  /** What invoking the domain-check function gave for one candidate: its
      data's `status` (missing or a string), or an error that carried a
      response body (whose `error` field is read) or did not. */
  datatype CheckResponse =
    | Data(status: Option<string>)
    | ErrorWithBody(bodyError: Option<string>, errorMessage: string)
    | ErrorWithoutBody(thrownMessage: Option<string>)

  /** One element of the `Promise.all` result. */
  datatype CandidateResult = CandidateResult(domain: string, status: string, error: Option<string>)

  /** The per-candidate `try`/`catch`: a failure becomes an `"error"` result
      with a message and never escapes. */
  function CheckCandidate(domain: string, resp: CheckResponse): (r: CandidateResult)
    ensures r.domain == domain
    ensures resp.Data? ==> r.status == ToLower(resp.status.GetOr("unknown")) && r.error == None
    ensures !resp.Data? ==> r.status == "error" && r.error.Some?
    ensures resp.ErrorWithBody? && resp.bodyError.Some? && resp.bodyError.value != "" ==>
      r.error == resp.bodyError
    ensures resp.ErrorWithBody? && !(resp.bodyError.Some? && resp.bodyError.value != "") ==>
      r.error == Some(resp.errorMessage)
    ensures resp.ErrorWithoutBody? && resp.thrownMessage.Some? ==> r.error == resp.thrownMessage
    ensures resp == ErrorWithoutBody(None) ==> r.error == Some("Failed")
  {
    match resp
    case Data(status) => CandidateResult(domain, ToLower(status.GetOr("unknown")), None)
    case ErrorWithBody(bodyError, message) =>
      // `new Error(payload?.error || error.message)`
      var m := if bodyError.Some? && bodyError.value != "" then bodyError.value else message;
      CandidateResult(domain, "error", Some(m))
    case ErrorWithoutBody(message) =>
      CandidateResult(domain, "error", Some(message.GetOr("Failed")))
  }

  /** The results of one batch, in candidate order. */
  function CheckAll(candidates: seq<string>, responses: seq<CheckResponse>): (rs: seq<CandidateResult>)
    requires |responses| == |candidates|
    ensures |rs| == |candidates|
    ensures forall i :: 0 <= i < |rs| ==> rs[i] == CheckCandidate(candidates[i], responses[i])
  {
    seq(|candidates|, i requires 0 <= i < |candidates| => CheckCandidate(candidates[i], responses[i]))
  }

  // ---------------------------------------------------------------------
  // Merge

  predicate IsError(r: CandidateResult) {
    r.status == "error"
  }

  datatype Item = Item(domain: string, status: Status, priceUsd: Option<int>, currency: Option<string>)

  function ToItem(r: CandidateResult): (it: Item)
    ensures it.domain == r.domain && it.priceUsd == None && it.currency == None
    ensures it.status != Premium && it.status != Blocked
  {
    Item(r.domain, StatusFromResult(r.status), None, None)
  }

  /** The returned items: the non-error results, mapped, in order. */
  function Items(rs: seq<CandidateResult>): (items: seq<Item>)
    ensures |items| <= |rs|
    ensures forall i :: 0 <= i < |items| ==> items[i].priceUsd == None && items[i].currency == None
    ensures forall i :: 0 <= i < |items| ==> items[i].status != Premium && items[i].status != Blocked
  {
    if rs == [] then []
    else (if IsError(rs[0]) then [] else [ToItem(rs[0])]) + Items(rs[1..])
  }

  /** `results.every((r) => r.status === "error")`. */
  predicate AllFailed(rs: seq<CandidateResult>) {
    forall i :: 0 <= i < |rs| ==> IsError(rs[i])
  }

  /** `results.find((r) => r.status === "error")`, as an index. */
  function FirstError(rs: seq<CandidateResult>): (r: Option<nat>)
    ensures r.Some? ==> r.value < |rs| && IsError(rs[r.value])
    ensures r.Some? ==> forall j :: 0 <= j < r.value ==> !IsError(rs[j])
    ensures r.None? ==> forall j :: 0 <= j < |rs| ==> !IsError(rs[j])
  {
    if rs == [] then None
    else if IsError(rs[0]) then Some(0)
    else
      var rest := FirstError(rs[1..]);
      if rest.Some? then Some(rest.value + 1) else None
  }

  /** The hook's error once a batch settled. */
  function MergeError(rs: seq<CandidateResult>): Option<string> {
    if AllFailed(rs) then
      var first := FirstError(rs);
      Some(if first.Some? && rs[first.value].error.Some? then rs[first.value].error.value else "Gagal cek domain")
    else None
  }

  /** Filtering keeps order: the items of a concatenation are the items of
      each part, concatenated. */
  lemma {:induction false} ItemsAppend(a: seq<CandidateResult>, b: seq<CandidateResult>)
    ensures Items(a + b) == Items(a) + Items(b)
    decreases |a|
  {
    if a == [] {
      assert a + b == b;
    } else {
      assert (a + b)[1..] == a[1..] + b;
      ItemsAppend(a[1..], b);
    }
  }

  /** The items are exactly the non-error results, in order: one item per
      success, none per error. */
  lemma ItemsOfOne(r: CandidateResult)
    ensures Items([r]) == if IsError(r) then [] else [ToItem(r)]
  {
    assert [r][1..] == [];
  }

  /** Items are empty exactly when every check failed. */
  lemma {:induction false} ItemsEmptyIffAllFailed(rs: seq<CandidateResult>)
    ensures Items(rs) == [] <==> AllFailed(rs)
    decreases |rs|
  {
    if rs != [] {
      ItemsEmptyIffAllFailed(rs[1..]);
      if AllFailed(rs) {
        assert AllFailed(rs[1..]) by {
          forall j | 0 <= j < |rs| - 1 ensures IsError(rs[1..][j]) {
            assert rs[1..][j] == rs[j + 1];
          }
        }
      }
      if !IsError(rs[0]) {
        assert Items(rs)[0] == ToItem(rs[0]);
      } else if AllFailed(rs[1..]) {
        forall j | 0 <= j < |rs| ensures IsError(rs[j]) {
          if j > 0 {
            assert rs[j] == rs[1..][j - 1];
          }
        }
      }
    }
  }

  /** The merged error is set exactly when every check failed; it is then the
      message of the first candidate, and the items are empty. When any check
      succeeded there is no error, whatever the others did. */
  lemma MergeErrorIffAllFailed(rs: seq<CandidateResult>)
    ensures MergeError(rs).Some? <==> AllFailed(rs)
    ensures AllFailed(rs) ==> Items(rs) == []
    ensures AllFailed(rs) && rs != [] && rs[0].error.Some? ==> MergeError(rs) == rs[0].error
    ensures AllFailed(rs) && (rs == [] || rs[0].error.None?) ==> MergeError(rs) == Some("Gagal cek domain")
    ensures !AllFailed(rs) ==> MergeError(rs) == None && Items(rs) != []
  {
    ItemsEmptyIffAllFailed(rs);
  }

  /** A domain-check answer whose status reads "error" counts as a failure
      that carries no message. */
  lemma ErrorStatusFromDataIsDropped(domain: string)
    ensures IsError(CheckCandidate(domain, Data(Some("Error"))))
    ensures CheckCandidate(domain, Data(Some("Error"))).error == None
    ensures MergeError([CheckCandidate(domain, Data(Some("Error")))]) == Some("Gagal cek domain")
  {
    assert ToLower("Error") == "error";
  }

  // ---------------------------------------------------------------------
  // Hook state

  /** The hook's state together with its debounce timer (`timer.current`),
      held as the keyword the pending timer will check. */
  class SuggestionsHook {
    var loading: bool
    var error: Option<string>
    var items: seq<Item>
    var timer: Option<string>

    predicate Idle()
      reads this
    {
      !loading && error == None && items == []
    }

    constructor ()
      ensures Idle() && timer == None
    {
      loading := false;
      error := None;
      items := [];
      timer := None;
    }

    /** The effect, run when `query` or `enabled` changes. The previous run's
        cleanup cancels its timer. A disabled hook does nothing more; an empty
        keyword resets the state at once; otherwise a check of the keyword is
        scheduled. */
    method QueryChanged(query: string, enabled: bool)
      modifies this
      ensures var q := NormalizeKeyword(query);
              timer == if enabled && q != "" then Some(q) else None
      ensures enabled && NormalizeKeyword(query) == "" ==> Idle()
      ensures !(enabled && NormalizeKeyword(query) == "") ==>
        loading == old(loading) && error == old(error) && items == old(items)
    {
      timer := None;
      if !enabled {
        return;
      }
      var q := NormalizeKeyword(query);
      if q == "" {
        loading, error, items := false, None, [];
        return;
      }
      timer := Some(q);
    }

    /** The debounce timer fires: the candidates are built (normalising the
        keyword once more); none resets the state, otherwise loading starts,
        the error is cleared and the last items stay on screen. Returns the
        batch to check. */
    method TimerFires() returns (batch: seq<string>)
      requires timer.Some?
      modifies this
      ensures timer == None
      ensures batch == BuildCandidates(old(timer).value)
      ensures batch == [] ==> Idle()
      ensures batch != [] ==> loading && error == None && items == old(items)
    {
      batch := BuildCandidates(timer.value);
      timer := None;
      if batch == [] {
        loading, error, items := false, None, [];
      } else {
        loading, error := true, None;
      }
    }

    /** Every check of a batch settled: loading ends, the items are the
        successful checks in candidate order, and the error is set only when
        all of them failed. Nothing stops a batch of a superseded query from
        settling and overwriting the state. */
    method Settle(batch: seq<string>, responses: seq<CheckResponse>)
      requires |responses| == |batch|
      modifies this`loading, this`error, this`items
      ensures !loading
      ensures items == Items(CheckAll(batch, responses))
      ensures error == MergeError(CheckAll(batch, responses))
      ensures error.Some? <==> AllFailed(CheckAll(batch, responses))
    {
      var results := CheckAll(batch, responses);
      MergeErrorIffAllFailed(results);
      loading := false;
      error := MergeError(results);
      items := Items(results);
    }
  }
}
