/**
 * trackingapp/utils.py: the pass over a trace list that drops local sites and warns
 * about repeated containers, the in-place removal of SCAC prefixes from bills of
 * lading, and the decision to reuse or refetch the UPRR API token.
 */
module Utils {
  import opened Wrappers
  import opened Python

  /** One entry of a trace list (a dict with these keys; BILL_OF_LADING may be absent). */
  datatype TraceEntry = TraceEntry(
    siteId: string,
    containerNumber: string,
    billNumber: string,
    billOfLading: Option<string>)

  // ---------------------------------------------------------------------------
  // check_duplicates

  /** `site_id.startswith('L')`: a local site, which is not traced. */
  predicate IsLocal(siteId: string) {
    |siteId| > 0 && siteId[0] == 'L'
  }

  /** The entries that are traced, in input order. */
  function Traced(entries: seq<TraceEntry>): (r: seq<TraceEntry>)
    ensures |r| <= |entries|
    ensures forall e :: e in r <==> e in entries && !IsLocal(e.siteId)
    decreases |entries|
  {
    if |entries| == 0 then []
    else
      var init := entries[..|entries| - 1];
      var last := entries[|entries| - 1];
      assert entries == init + [last];
      Traced(init) + (if IsLocal(last.siteId) then [] else [last])
  }

  /** The container numbers of the entries, in input order. */
  function ContainerNumbers(entries: seq<TraceEntry>): (r: seq<string>)
    ensures |r| == |entries|
    ensures forall i :: 0 <= i < |entries| ==> r[i] == entries[i].containerNumber
  {
    seq(|entries|, i requires 0 <= i < |entries| => entries[i].containerNumber)
  }

  /** The warning logged for an entry whose container number was already seen. */
  function Warning(e: TraceEntry): string {
    "Container # " + e.containerNumber + ", freight bill # " + e.billNumber + ": listed multiple times"
  }

  /** The warnings logged over the entries, in input order. */
  function Warnings(entries: seq<TraceEntry>): seq<string>
    decreases |entries|
  {
    if |entries| == 0 then []
    else
      var init := entries[..|entries| - 1];
      var last := entries[|entries| - 1];
      Warnings(init) + (if last.containerNumber in ContainerNumbers(init) then [Warning(last)] else [])
  }

  /** `check_duplicates`: the traced entries, with one warning per repeated container. */
  method CheckDuplicates(dataToTrace: seq<TraceEntry>) returns (response: seq<TraceEntry>, warnings: seq<string>)
    ensures response == Traced(dataToTrace)
    ensures warnings == Warnings(dataToTrace)
  {
    response := [];
    warnings := [];
    var containers: seq<string> := [];
    for i := 0 to |dataToTrace|
      invariant response == Traced(dataToTrace[..i])
      invariant warnings == Warnings(dataToTrace[..i])
      invariant containers == ContainerNumbers(dataToTrace[..i])
    {
      PrefixStep(dataToTrace, i);
      var entry := dataToTrace[i];
      if !IsLocal(entry.siteId) {
        response := response + [entry];
      }
      if |containers| > 0 && entry.containerNumber in containers {
        warnings := warnings + [Warning(entry)];
      }
      containers := containers + [entry.containerNumber];
    }
    assert dataToTrace[..|dataToTrace|] == dataToTrace;
  }

  /** How the three specifications grow by one entry of the input. */
  lemma PrefixStep(entries: seq<TraceEntry>, i: nat)
    requires i < |entries|
    ensures Traced(entries[..i + 1]) ==
      Traced(entries[..i]) + (if IsLocal(entries[i].siteId) then [] else [entries[i]])
    ensures Warnings(entries[..i + 1]) == Warnings(entries[..i]) +
      (if entries[i].containerNumber in ContainerNumbers(entries[..i]) then [Warning(entries[i])] else [])
    ensures ContainerNumbers(entries[..i + 1]) == ContainerNumbers(entries[..i]) + [entries[i].containerNumber]
  {
    assert entries[..i + 1][..i] == entries[..i];
    assert entries[..i + 1][i] == entries[i];
  }

  /** No two entries share a container number. */
  predicate DistinctContainers(entries: seq<TraceEntry>) {
    forall i, j :: 0 <= i < j < |entries| ==> entries[i].containerNumber != entries[j].containerNumber
  }

  /** Nothing is logged exactly when every container number occurs once. */
  lemma {:induction false} NoWarningsIffDistinct(entries: seq<TraceEntry>)
    ensures Warnings(entries) == [] <==> DistinctContainers(entries)
    decreases |entries|
  {
    if |entries| > 0 {
      var init := entries[..|entries| - 1];
      var last := entries[|entries| - 1];
      NoWarningsIffDistinct(init);
      var seen := ContainerNumbers(init);
      if DistinctContainers(entries) {
        assert DistinctContainers(init) by {
          forall i, j | 0 <= i < j < |init|
            ensures init[i].containerNumber != init[j].containerNumber
          {
            assert init[i] == entries[i] && init[j] == entries[j];
          }
        }
        assert last.containerNumber !in seen by {
          forall k | 0 <= k < |seen|
            ensures seen[k] != last.containerNumber
          {
            assert init[k] == entries[k];
          }
        }
      }
      if DistinctContainers(init) && last.containerNumber !in seen {
        forall i, j | 0 <= i < j < |entries|
          ensures entries[i].containerNumber != entries[j].containerNumber
        {
          if j < |init| {
            assert init[i] == entries[i] && init[j] == entries[j];
          } else {
            assert seen[i] == entries[i].containerNumber;
          }
        }
      }
    }
  }

  /** The set of container numbers among the entries. */
  function ContainerSet(entries: seq<TraceEntry>): (r: set<string>)
    ensures forall c :: c in r <==> c in ContainerNumbers(entries)
    decreases |entries|
  {
    if |entries| == 0 then {}
    else
      var init := entries[..|entries| - 1];
      var last := entries[|entries| - 1];
      assert ContainerNumbers(entries) == ContainerNumbers(init) + [last.containerNumber];
      ContainerSet(init) + {last.containerNumber}
  }

  /** Every entry either brings a new container number or is warned about once. */
  lemma {:induction false} WarningCount(entries: seq<TraceEntry>)
    ensures |Warnings(entries)| + |ContainerSet(entries)| == |entries|
    decreases |entries|
  {
    if |entries| > 0 {
      var init := entries[..|entries| - 1];
      var last := entries[|entries| - 1];
      WarningCount(init);
      if last.containerNumber in ContainerNumbers(init) {
        assert ContainerSet(entries) == ContainerSet(init);
      } else {
        assert last.containerNumber !in ContainerSet(init);
      }
    }
  }

  // ---------------------------------------------------------------------------
  // remove_scaccode

  /**
   * One item after `remove_scaccode`: when the stripped bill of lading is longer than
   * three characters and starts with a known SCAC code, the first four characters of
   * the value as stored (not as stripped) are dropped.
   */
  function ScacStripped(e: TraceEntry, scacCodes: seq<string>): TraceEntry {
    match e.billOfLading
    case None => e
    case Some(bol) =>
      var equipmentId := Strip(bol);
      if bol != "" && |equipmentId| > 3 && equipmentId[..4] in scacCodes then
        e.(billOfLading := Some(bol[4..]))
      else e
  }

  /** `remove_scaccode`: every item rewritten in place; the same list is returned. */
  method RemoveScacCode(dataToTrace: array<TraceEntry>, scacCodes: seq<string>) returns (r: array<TraceEntry>)
    modifies dataToTrace
    ensures r == dataToTrace
    ensures forall k :: 0 <= k < dataToTrace.Length ==>
      dataToTrace[k] == ScacStripped(old(dataToTrace[k]), scacCodes)
  {
    ghost var before := dataToTrace[..];
    for i := 0 to dataToTrace.Length
      invariant forall k :: 0 <= k < i ==> dataToTrace[k] == ScacStripped(before[k], scacCodes)
      invariant dataToTrace[i..] == before[i..]
    {
      var item := dataToTrace[i];
      assert item == before[i] by { assert dataToTrace[i..][0] == before[i..][0]; }
      if item.billOfLading.Some? && item.billOfLading.value != "" {
        var equipmentId := Strip(item.billOfLading.value);
        if |equipmentId| > 3 {
          equipmentId := equipmentId[..4];
          if equipmentId in scacCodes {
            dataToTrace[i] := item.(billOfLading := Some(item.billOfLading.value[4..]));
          }
        }
      }
      assert dataToTrace[i] == ScacStripped(before[i], scacCodes);
      assert dataToTrace[i + 1..] == before[i + 1..] by {
        assert before[i + 1..] == before[i..][1..];
      }
    }
    return dataToTrace;
  }

  /**
   * An item changes exactly when its stripped bill of lading is longer than three
   * characters and starts with a listed code; only the bill of lading ever changes,
   * and then it loses its first four characters.
   */
  lemma ScacStrippedChanges(e: TraceEntry, scacCodes: seq<string>)
    ensures ScacStripped(e, scacCodes) != e <==>
      e.billOfLading.Some? && |Strip(e.billOfLading.value)| > 3
      && Strip(e.billOfLading.value)[..4] in scacCodes
    ensures ScacStripped(e, scacCodes) == e.(billOfLading := ScacStripped(e, scacCodes).billOfLading)
    ensures ScacStripped(e, scacCodes) != e ==>
      ScacStripped(e, scacCodes).billOfLading == Some(e.billOfLading.value[4..])
  {
    if e.billOfLading.Some? && |Strip(e.billOfLading.value)| > 3 {
      var bol := e.billOfLading.value;
      assert |bol[4..]| < |bol|;
    }
  }

  /** A bill of lading only ever loses a prefix of at most four characters. */
  lemma ScacStrippedSuffix(e: TraceEntry, scacCodes: seq<string>)
    requires e.billOfLading.Some?
    ensures ScacStripped(e, scacCodes).billOfLading.Some?
    ensures var before, after := e.billOfLading.value, ScacStripped(e, scacCodes).billOfLading.value;
      |before| - 4 <= |after| <= |before| && after == before[|before| - |after|..]
  {
  }

  /**
   * The test reads the stripped value but slices the stored one: a bill `s` with no
   * surrounding whitespace that starts with a listed code, stored behind `k <= 4`
   * leading whitespace characters, loses only
   * `4 - k` characters of its own (with no padding the whole code goes).
   */
  lemma PaddedBillKeepsCodeTail(e: TraceEntry, scacCodes: seq<string>, w: string, s: string)
    requires e.billOfLading == Some(w + s)
    requires AllSpace(w) && |w| <= 4
    requires |s| >= 4 && !IsSpace(s[0]) && !IsSpace(s[|s| - 1]) && s[..4] in scacCodes
    ensures ScacStripped(e, scacCodes) == e.(billOfLading := Some(s[4 - |w|..]))
  {
    var bol := w + s;
    assert Strip(bol) == s by {
      StripLeftPadding(w, s);
      StripFixed(s);
    }
    assert ScacStripped(e, scacCodes) == e.(billOfLading := Some(bol[4..])) by {
      ListedBill(e, scacCodes, bol, s);
    }
    assert bol[4..] == s[4 - |w|..];
  }

  /** " ABCD123" under the code "ABCD" becomes "D123", not "123". */
  lemma LeadingSpaceExample(e: TraceEntry)
    requires e.billOfLading == Some(" ABCD123")
    ensures ScacStripped(e, ["ABCD"]) == e.(billOfLading := Some("D123"))
  {
    var w, s := " ", "ABCD123";
    assert " ABCD123" == w + s;
    assert AllSpace(w) && |w| == 1;
    assert |s| == 7 && !IsSpace(s[0]) && !IsSpace(s[6]);
    assert s[..4] == "ABCD";
    PaddedBillKeepsCodeTail(e, ["ABCD"], w, s);
    assert s[3..] == "D123";
  }

  lemma StripLeftPadding(w: string, s: string)
    requires AllSpace(w)
    ensures Strip(w + s) == Strip(s)
  {
    StripIgnoresPadding(w, s, "");
    assert w + s + "" == w + s;
  }

  lemma ListedBill(e: TraceEntry, scacCodes: seq<string>, bol: string, s: string)
    requires e.billOfLading == Some(bol)
    requires Strip(bol) == s && |s| > 3 && s[..4] in scacCodes
    ensures ScacStripped(e, scacCodes) == e.(billOfLading := Some(bol[4..]))
  {
    assert |bol| >= 4;
    assert bol != [];
  }

  // ---------------------------------------------------------------------------
  // get_or_create_uprr_token

  /** A stored UPRR token: creation time in seconds and `expires_in` as stored. */
  datatype Token = Token(accessToken: string, createdAt: int, expiresIn: string)

  /** Either the stored access token is handed back, or a new one must be requested. */
  datatype TokenChoice = Reuse(accessToken: string) | Refetch

  /**
   * The decision `get_or_create_uprr_token` takes over the token table at time `now`:
   * the last token is reused while `created_at + expires_in >= now`; with no token, or an
   * expired one, a new token is fetched. `int(expires_in)` raises on text that is no number.
   */
  function TokenDecision(tokens: seq<Token>, now: int): (r: Result<TokenChoice, Exception>)
    ensures |tokens| == 0 ==> r == Ok(Refetch)
    ensures |tokens| > 0 ==>
      var last := tokens[|tokens| - 1];
      && (r.Err? <==> ParseInt(last.expiresIn).None?)
      && (r == Ok(Reuse(last.accessToken)) <==>
            ParseInt(last.expiresIn).Some? && last.createdAt + ParseInt(last.expiresIn).value >= now)
      && (r == Ok(Refetch) <==>
            ParseInt(last.expiresIn).Some? && last.createdAt + ParseInt(last.expiresIn).value < now)
    ensures r.Err? ==> r.error == ValueError
  {
    if |tokens| == 0 then Ok(Refetch)
    else
      var token := tokens[|tokens| - 1];
      match ParseInt(token.expiresIn)
      case None => Err(ValueError)
      case Some(seconds) =>
        if token.createdAt + seconds >= now then Ok(Reuse(token.accessToken)) else Ok(Refetch)
  }

  /** Only the latest token is consulted. */
  lemma TokenDecisionUsesLast(tokens: seq<Token>, t: Token, now: int)
    ensures TokenDecision(tokens + [t], now) == TokenDecision([t], now)
  {
  }

  /**
   * Freshness is monotone in time: a token reused at some moment is reused at every
   * earlier one, and a refetch stays a refetch later on.
   */
  lemma TokenDecisionMonotone(tokens: seq<Token>, earlier: int, later: int)
    requires earlier <= later
    ensures TokenDecision(tokens, later).Ok? && TokenDecision(tokens, later).value.Reuse? ==>
      TokenDecision(tokens, earlier) == TokenDecision(tokens, later)
    ensures TokenDecision(tokens, earlier) == Ok(Refetch) ==> TokenDecision(tokens, later) == Ok(Refetch)
  {
  }
}
