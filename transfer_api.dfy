/**
 * The string handling of the bank-transfer gateway client (BankTransferAPI):
 * the JSON escaper used to build requests, the hand-written extractor that
 * reads one value out of a response, and the decision whether a response
 * reports success. The HTTP exchange itself is not modelled: a response is an
 * input, and so is the whole TransferResult wherever the ledger uses one.
 */
module TransferApi {
  import opened Wrappers
  import opened Text

  /** BankTransferAPI.TransferResult. */
  datatype TransferResult = TransferResult(
    success: bool,
    message: Option<string>,
    transactionId: Option<string>,
    rawResponse: string)

  // -----------------------------------------------------------------------
  // escapeJson
  // -----------------------------------------------------------------------

  /** String.replace(c, r) for a one-character target: every c becomes r. */
  function ReplaceChar(s: string, c: char, r: string): string
    decreases |s|
  {
    if s == [] then []
    else (if s[0] == c then r else [s[0]]) + ReplaceChar(s[1..], c, r)
  }

  /**
   * escapeJson: backslash first, then quote, newline, carriage return and
   * tab, each by its two-character escape; null becomes "".
   */
  function EscapeJson(value: Option<string>): (r: string)
    ensures value.None? ==> r == ""
    ensures value.Some? ==> r == EscapeEach(value.value)
    ensures '\n' !in r && '\r' !in r && '\t' !in r
  {
    if value.None? then ""
    else
      EscapeJsonPerChar(value.value);
      EscapedHasNoBreaks(value.value);
      EscapeSteps(value.value)
  }

  function EscapeSteps(s: string): string {
    ReplaceChar(ReplaceChar(ReplaceChar(ReplaceChar(ReplaceChar(
      s, '\\', "\\\\"), '"', "\\\""), '\n', "\\n"), '\r', "\\r"), '\t', "\\t")
  }

  /** The escape of one character, as section 7 of RFC 8259 writes the five it covers. */
  function EscapeChar(c: char): string {
    if c == '\\' then "\\\\"
    else if c == '"' then "\\\""
    else if c == '\n' then "\\n"
    else if c == '\r' then "\\r"
    else if c == '\t' then "\\t"
    else [c]
  }

  /** Escaping character by character. */
  function EscapeEach(s: string): string
    decreases |s|
  {
    if s == [] then [] else EscapeChar(s[0]) + EscapeEach(s[1..])
  }

  lemma {:induction false} ReplaceCharAppend(a: string, b: string, c: char, r: string)
    ensures ReplaceChar(a + b, c, r) == ReplaceChar(a, c, r) + ReplaceChar(b, c, r)
    decreases |a|
  {
    if a == [] {
      assert a + b == b;
    } else {
      assert (a + b)[0] == a[0];
      assert (a + b)[1..] == a[1..] + b;
      ReplaceCharAppend(a[1..], b, c, r);
      var h := if a[0] == c then r else [a[0]];
      calc {
        ReplaceChar(a + b, c, r);
        h + ReplaceChar(a[1..] + b, c, r);
        h + (ReplaceChar(a[1..], c, r) + ReplaceChar(b, c, r));
        (h + ReplaceChar(a[1..], c, r)) + ReplaceChar(b, c, r);
      }
    }
  }

  lemma EscapeStepsAppend(a: string, b: string)
    ensures EscapeSteps(a + b) == EscapeSteps(a) + EscapeSteps(b)
  {
    var s1a := ReplaceChar(a, '\\', "\\\\");
    var s1b := ReplaceChar(b, '\\', "\\\\");
    ReplaceCharAppend(a, b, '\\', "\\\\");
    var s2a := ReplaceChar(s1a, '"', "\\\"");
    var s2b := ReplaceChar(s1b, '"', "\\\"");
    ReplaceCharAppend(s1a, s1b, '"', "\\\"");
    var s3a := ReplaceChar(s2a, '\n', "\\n");
    var s3b := ReplaceChar(s2b, '\n', "\\n");
    ReplaceCharAppend(s2a, s2b, '\n', "\\n");
    var s4a := ReplaceChar(s3a, '\r', "\\r");
    var s4b := ReplaceChar(s3b, '\r', "\\r");
    ReplaceCharAppend(s3a, s3b, '\r', "\\r");
    ReplaceCharAppend(s4a, s4b, '\t', "\\t");
  }

  /**
   * The chain of replacements escapes each character on its own: no later
   * replacement rewrites what an earlier one wrote.
   */
  lemma {:induction false} EscapeJsonPerChar(s: string)
    ensures EscapeSteps(s) == EscapeEach(s)
    decreases |s|
  {
    if s != [] {
      assert s == [s[0]] + s[1..];
      EscapeStepsAppend([s[0]], s[1..]);
      EscapeJsonPerChar(s[1..]);
      EscapeOne(s[0]);
    }
  }

  lemma ReplaceSingle(c: char, d: char, r: string)
    ensures ReplaceChar([c], d, r) == if c == d then r else [c]
  {
    assert [c][1..] == [];
  }

  lemma ReplaceAbsent(s: string, d: char, r: string)
    requires d !in s
    ensures ReplaceChar(s, d, r) == s
    decreases |s|
  {
    if s != [] {
      ReplaceAbsent(s[1..], d, r);
    }
  }

  /** The chain of replacements on a single character gives that character's escape. */
  lemma EscapeOne(c: char)
    ensures EscapeSteps([c]) == EscapeChar(c)
  {
    var s1 := ReplaceChar([c], '\\', "\\\\");
    ReplaceSingle(c, '\\', "\\\\");
    if c == '\\' {
      ReplaceAbsent(s1, '"', "\\\"");
      ReplaceAbsent(s1, '\n', "\\n");
      ReplaceAbsent(s1, '\r', "\\r");
      ReplaceAbsent(s1, '\t', "\\t");
    } else {
      var s2 := ReplaceChar(s1, '"', "\\\"");
      ReplaceSingle(c, '"', "\\\"");
      if c == '"' {
        ReplaceAbsent(s2, '\n', "\\n");
        ReplaceAbsent(s2, '\r', "\\r");
        ReplaceAbsent(s2, '\t', "\\t");
      } else {
        var s3 := ReplaceChar(s2, '\n', "\\n");
        ReplaceSingle(c, '\n', "\\n");
        if c == '\n' {
          ReplaceAbsent(s3, '\r', "\\r");
          ReplaceAbsent(s3, '\t', "\\t");
        } else {
          var s4 := ReplaceChar(s3, '\r', "\\r");
          ReplaceSingle(c, '\r', "\\r");
          if c == '\r' {
            ReplaceAbsent(s4, '\t', "\\t");
          } else {
            ReplaceSingle(c, '\t', "\\t");
          }
        }
      }
    }
  }

  /** Each character maps to itself or to a backslash followed by one character. */
  lemma EscapeCharShape(c: char)
    ensures EscapeChar(c) == [c] || (|EscapeChar(c)| == 2 && EscapeChar(c)[0] == '\\')
    ensures c != '\n' && c != '\r' && c != '\t' ==> '\n' !in EscapeChar(c) && '\r' !in EscapeChar(c) && '\t' !in EscapeChar(c)
    ensures c == '\n' || c == '\r' || c == '\t' ==> EscapeChar(c) != [c] && !('\n' in EscapeChar(c) || '\r' in EscapeChar(c) || '\t' in EscapeChar(c))
    ensures c < ' ' && c != '\n' && c != '\r' && c != '\t' ==> EscapeChar(c) == [c]
  {
  }

  /** No raw newline, carriage return or tab survives escaping. */
  lemma {:induction false} EscapedHasNoBreaks(s: string)
    ensures '\n' !in EscapeEach(s) && '\r' !in EscapeEach(s) && '\t' !in EscapeEach(s)
    decreases |s|
  {
    if s != [] {
      EscapeCharShape(s[0]);
      EscapedHasNoBreaks(s[1..]);
    }
  }

  /** Every other control character passes through unescaped. */
  lemma OtherControlsPassThrough(c: char)
    requires c < ' ' && c != '\n' && c != '\r' && c != '\t'
    ensures EscapeJson(Some([c])) == [c]
  {
    EscapeCharShape(c);
    assert EscapeEach([c]) == EscapeChar(c) + EscapeEach([]);
  }

  // -----------------------------------------------------------------------
  // extractJsonValue
  // -----------------------------------------------------------------------

  /** The first index from i on that holds neither a space nor a quote (or the end). */
  function SkipSpacesAndQuotes(json: string, i: nat): (r: nat)
    requires i <= |json|
    ensures i <= r <= |json|
    ensures forall j :: i <= j < r ==> json[j] == ' ' || json[j] == '"'
    ensures r < |json| ==> json[r] != ' ' && json[r] != '"'
    decreases |json| - i
  {
    if i < |json| && (json[i] == ' ' || json[i] == '"') then SkipSpacesAndQuotes(json, i + 1) else i
  }

  /** The first index from i on that holds ',' or '}' (or the end). */
  function ValueEnd(json: string, i: nat): (r: nat)
    requires i <= |json|
    ensures i <= r <= |json|
    ensures forall j :: i <= j < r ==> json[j] != ',' && json[j] != '}'
    ensures r < |json| ==> json[r] == ',' || json[r] == '}'
    decreases |json| - i
  {
    if i < |json| && json[i] != ',' && json[i] != '}' then ValueEnd(json, i + 1) else i
  }

  /**
   * extractJsonValue: find the quoted key, then the next ':'; skip spaces and
   * quotes; if the last character skipped was a quote, the value runs to the
   * next quote (none: null), otherwise to the next ',' or '}', trimmed.
   */
  function ExtractedValue(json: string, key: string): Option<string> {
    var keyIndex := IndexOf(json, "\"" + key + "\"", 0);
    if keyIndex == -1 then None else ValueAfterKey(json, keyIndex)
  }

  function ValueAfterKey(json: string, keyIndex: nat): Option<string> {
    var colonIndex := IndexOf(json, ":", keyIndex);
    if colonIndex == -1 then None else ValueAfterColon(json, colonIndex)
  }

  function ValueAfterColon(json: string, colonIndex: nat): Option<string>
    requires colonIndex < |json|
  {
    var start := SkipSpacesAndQuotes(json, colonIndex + 1);
    if json[start - 1] == '"' then QuotedValue(json, start) else BareValue(json, start)
  }

  function BareValue(json: string, start: nat): Option<string>
    requires start <= |json|
  {
    Some(Trim(json[start..ValueEnd(json, start)]))
  }

  function QuotedValue(json: string, start: nat): Option<string>
    requires start <= |json|
  {
    var end := IndexOf(json, "\"", start);
    if end == -1 then None else Some(json[start..end])
  }

  lemma BareAfterColon(json: string, colonIndex: nat)
    requires colonIndex < |json|
    ensures var start := SkipSpacesAndQuotes(json, colonIndex + 1);
      json[start - 1] != '"' ==> ValueAfterColon(json, colonIndex) == BareValue(json, start)
  {
  }

  /** extractJsonValue: the two lookups, then the value after the colon. */
  method ExtractJsonValue(json: string, key: string) returns (r: Option<string>)
    ensures r == ExtractedValue(json, key)
  {
    var keyIndex := IndexOf(json, "\"" + key + "\"", 0);
    if keyIndex == -1 {
      return None;
    }
    var colonIndex := IndexOf(json, ":", keyIndex);
    if colonIndex == -1 {
      return None;
    }
    r := ReadValue(json, colonIndex);
  }

  /** The two index loops of extractJsonValue, from the character after the colon. */
  method ReadValue(json: string, colonIndex: nat) returns (r: Option<string>)
    requires colonIndex < |json|
    ensures r == ValueAfterColon(json, colonIndex)
  {
    var startIndex := SkipLoop(json, colonIndex + 1);
    if json[startIndex - 1] == '"' {
      var endIndex := IndexOf(json, "\"", startIndex);
      if endIndex == -1 {
        return None;
      }
      return Some(json[startIndex..endIndex]);
    } else {
      BareAfterColon(json, colonIndex);
      var endIndex := ValueEndLoop(json, startIndex);
      return Some(Trim(json[startIndex..endIndex]));
    }
  }

  /** The loop that skips spaces and quotes. */
  method SkipLoop(json: string, from: nat) returns (startIndex: nat)
    requires 0 < from <= |json|
    ensures startIndex == SkipSpacesAndQuotes(json, from)
  {
    startIndex := from;
    while startIndex < |json| && (json[startIndex] == ' ' || json[startIndex] == '"')
      invariant from <= startIndex <= |json|
      invariant SkipSpacesAndQuotes(json, startIndex) == SkipSpacesAndQuotes(json, from)
      decreases |json| - startIndex
    {
      startIndex := startIndex + 1;
    }
  }

  /** The loop that runs to the next ',' or '}'. */
  method ValueEndLoop(json: string, from: nat) returns (endIndex: nat)
    requires from <= |json|
    ensures endIndex == ValueEnd(json, from)
  {
    endIndex := from;
    while endIndex < |json| && json[endIndex] != ',' && json[endIndex] != '}'
      invariant from <= endIndex <= |json|
      invariant ValueEnd(json, endIndex) == ValueEnd(json, from)
      decreases |json| - endIndex
    {
      endIndex := endIndex + 1;
    }
  }

  /** Without an occurrence of the quoted key there is no value. */
  lemma MissingKeyGivesNull(json: string, key: string)
    requires forall k :: !OccursAt(json, "\"" + key + "\"", k)
    ensures ExtractedValue(json, key) == None
  {
  }

  /** When no ':' follows the first occurrence of the quoted key there is no value. */
  lemma MissingColonGivesNull(json: string, key: string, k: nat)
    requires OccursAt(json, "\"" + key + "\"", k)
    requires forall j :: 0 <= j < k ==> !OccursAt(json, "\"" + key + "\"", j)
    requires forall j :: k <= j ==> !OccursAt(json, ":", j)
    ensures ExtractedValue(json, key) == None
  {
    assert IndexOf(json, "\"" + key + "\"", 0) == k;
  }

  /**
   * A quoted value is missing exactly when no closing quote follows, and it
   * never holds a quote.
   */
  lemma QuotedValueContract(json: string, start: nat)
    requires start <= |json|
    ensures QuotedValue(json, start).None? <==> forall j :: start <= j ==> !OccursAt(json, "\"", j)
    ensures QuotedValue(json, start).Some? ==> '"' !in QuotedValue(json, start).value
  {
    var end := IndexOf(json, "\"", start);
    if end != -1 {
      var v := json[start..end];
      forall j | 0 <= j < |v|
        ensures v[j] != '"'
      {
        assert !OccursAt(json, "\"", start + j);
        assert json[start + j..start + j + 1] == [v[j]];
      }
    }
  }

  /** A bare value is always present, holds no ',' or '}', and is trimmed. */
  lemma BareValueContract(json: string, start: nat)
    requires start <= |json|
    ensures BareValue(json, start).Some?
    ensures ',' !in BareValue(json, start).value && '}' !in BareValue(json, start).value
    ensures var v := BareValue(json, start).value; |v| > 0 ==> v[0] > ' ' && v[|v| - 1] > ' '
  {
    var v := json[start..ValueEnd(json, start)];
    TrimIsInside(v);
  }

  /** Every value found is either quote-free or free of ',' and '}'. */
  lemma ExtractedValueShape(json: string, key: string)
    ensures var v := ExtractedValue(json, key);
      v.Some? ==> ('"' !in v.value || (',' !in v.value && '}' !in v.value))
  {
    var keyIndex := IndexOf(json, "\"" + key + "\"", 0);
    if keyIndex != -1 {
      var colonIndex := IndexOf(json, ":", keyIndex);
      if colonIndex != -1 {
        ValueAfterColonShape(json, colonIndex);
      }
    }
  }

  lemma ValueAfterColonShape(json: string, colonIndex: nat)
    requires colonIndex < |json|
    ensures var v := ValueAfterColon(json, colonIndex);
      v.Some? ==> ('"' !in v.value || (',' !in v.value && '}' !in v.value))
  {
    var start := SkipSpacesAndQuotes(json, colonIndex + 1);
    if json[start - 1] == '"' {
      assert ValueAfterColon(json, colonIndex) == QuotedValue(json, start);
      QuotedValueContract(json, start);
    } else {
      assert ValueAfterColon(json, colonIndex) == BareValue(json, start);
      BareValueContract(json, start);
    }
  }

  /** Trimming keeps a contiguous piece of the string. */
  lemma TrimIsInside(s: string)
    ensures forall c :: c in Trim(s) ==> c in s
  {
    var t := TrimStart(s);
    assert forall c :: c in t ==> c in s;
    assert forall c :: c in TrimEnd(t) ==> c in t;
  }

  // -----------------------------------------------------------------------
  // parseResponse
  // -----------------------------------------------------------------------

  /**
   * parseResponse: success iff the code is exactly 200 and the status is
   * "success" ignoring case, that is, spelled with each letter in either
   * case or, for the s, as the long s, which upper-cases to S.
   */
  function ParseResponse(response: string, httpCode: int): (r: TransferResult)
    ensures r.success <==>
      httpCode == 200 && ExtractedValue(response, "status").Some? &&
      SpelledWithVariants("success", ExtractedValue(response, "status").value)
  {
    var status := ExtractedValue(response, "status");
    SuccessIgnoringCase(if status.Some? then status.value else "");
    TransferResult(
      status.Some? && EqualsIgnoreCase("success", status.value) && httpCode == 200,
      ExtractedValue(response, "message"),
      ExtractedValue(response, "transaction_id"),
      response)
  }

  /** Any code other than 200, or a response without a status, is a failure. */
  lemma ParseResponseFailures(response: string, httpCode: int)
    ensures httpCode != 200 ==> !ParseResponse(response, httpCode).success
    ensures ExtractedValue(response, "status").None? ==> !ParseResponse(response, httpCode).success
  {
  }

  /** The status comparison ignores case: "SUCCESS", "Success" and "\U{017F}uccess" succeed, "successful" does not. */
  lemma ParseResponseIgnoresCase(response: string)
    ensures ExtractedValue(response, "status") in {Some("SUCCESS"), Some("Success"), Some("\U{017F}uccess")} ==>
      ParseResponse(response, 200).success
    ensures ExtractedValue(response, "status") == Some("successful") ==> !ParseResponse(response, 200).success
  {
    SuccessIgnoringCase(if ExtractedValue(response, "status").Some? then ExtractedValue(response, "status").value else "");
  }

  /** The status words parseResponse accepts, "SUCCESS", "Success" and the long-s spelling among them. */
  lemma SuccessIgnoringCase(status: string)
    ensures EqualsIgnoreCase("success", status) <==> SpelledWithVariants("success", status)
    ensures status in {"SUCCESS", "Success", "\U{017F}uccess"} ==> EqualsIgnoreCase("success", status)
  {
    var w := "success";
    assert w == ['s', 'u', 'c', 'c', 'e', 's', 's'];
    AsciiWordIgnoreCase(w, status);
  }

  /** The raw response, the message and the gateway's id are kept as found. */
  lemma ParseResponseKeeps(response: string, httpCode: int)
    ensures ParseResponse(response, httpCode).rawResponse == response
    ensures ParseResponse(response, httpCode).message == ExtractedValue(response, "message")
    ensures ParseResponse(response, httpCode).transactionId == ExtractedValue(response, "transaction_id")
  {
  }
}
