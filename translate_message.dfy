/**
 * The edge function supabase/functions/translate-message/index.ts: it takes a
 * new `messages` record, wraps its sanitised text in tags for the translation
 * model, cleans the model's reply and stores it on the message. The request
 * body, the API key's presence, the model's reply and the database's answer
 * are parameters; the HTTP reply is a status with one of three bodies.
 */
module TranslateMessage {
  import opened Common
  import opened Types

  const Open: string := "<text_to_translate>"
  /** The closing tag, written as the two halves the counterexample below splits it into. */
  const Close: string := CloseHead + CloseTail
  const CloseHead: string := "</text_to"
  const CloseTail: string := "_translate>"

  predicate NonEmptyPatterns(pats: seq<string>) {
    forall i :: 0 <= i < |pats| ==> pats[i] != []
  }

  /** The length of the first pattern `s` starts with, or 0 when it starts with none. */
  function MatchLen(s: string, pats: seq<string>): (n: nat)
    requires NonEmptyPatterns(pats)
    ensures n <= |s|
    ensures n > 0 ==> s[..n] in pats
    ensures n == 0 ==> forall p :: p in pats ==> !OccursAt(s, p, 0)
  {
    if pats == [] then 0
    else if OccursAt(s, pats[0], 0) then |pats[0]|
    else MatchLen(s, pats[1..])
  }

  /**
   * `s.replace(re, '')` for a global regular expression that matches exactly the
   * strings of `pats`: one left-to-right pass that drops each match and resumes
   * after it.
   */
  function Strip(s: string, pats: seq<string>): (r: string)
    requires NonEmptyPatterns(pats)
    ensures |r| <= |s|
    decreases |s|
  {
    if s == [] then []
    else
      var n := MatchLen(s, pats);
      if n > 0 then Strip(s[n..], pats) else [s[0]] + Strip(s[1..], pats)
  }

  /** The input sanitising: only closing tags are removed; a text without one is sent as written. */
  function Sanitize(s: string): (r: string)
    ensures |r| <= |s|
    ensures Includes(s, Close) ==> |r| < |s|
    ensures !Includes(s, Close) ==> r == s
  {
    if Includes(s, Close) then
      StripShortens(s, [Close], Close);
      Strip(s, [Close])
    else
      StripFree(s, [Close]);
      Strip(s, [Close])
  }

  /**
   * The output cleanup `/<\/?text_to_translate>/g`: opening and closing tags
   * are removed; a reply without either is left as it is.
   */
  function Cleanup(s: string): (r: string)
    ensures |r| <= |s|
    ensures Includes(s, Open) || Includes(s, Close) ==> |r| < |s|
    ensures !Includes(s, Open) && !Includes(s, Close) ==> r == s
  {
    if Includes(s, Open) then
      StripShortens(s, [Open, Close], Open);
      Strip(s, [Open, Close])
    else if Includes(s, Close) then
      StripShortens(s, [Open, Close], Close);
      Strip(s, [Open, Close])
    else
      StripFree(s, [Open, Close]);
      Strip(s, [Open, Close])
  }

  /** An occurrence at a later position is an occurrence in the whole string. */
  lemma IncludesTail(s: string, p: string)
    requires s != [] && Includes(s[1..], p)
    ensures Includes(s, p)
  {
    var i :| 0 <= i <= |s[1..]| - |p| && OccursAt(s[1..], p, i);
    assert s[i + 1..i + 1 + |p|] == s[1..][i..i + |p|];
    assert OccursAt(s, p, i + 1);
  }

  /** Text that contains none of the patterns passes through unchanged. */
  lemma {:induction false} StripFree(s: string, pats: seq<string>)
    requires NonEmptyPatterns(pats)
    requires forall p :: p in pats ==> !Includes(s, p)
    ensures Strip(s, pats) == s
    decreases |s|
  {
    if s != [] {
      forall p | p in pats
        ensures !OccursAt(s, p, 0)
      {
        if OccursAt(s, p, 0) {
          assert Includes(s, p);
        }
      }
      assert MatchLen(s, pats) == 0 by {
        if MatchLen(s, pats) > 0 {
          var n := MatchLen(s, pats);
          assert OccursAt(s, s[..n], 0);
        }
      }
      forall p | p in pats
        ensures !Includes(s[1..], p)
      {
        if Includes(s[1..], p) {
          IncludesTail(s, p);
        }
      }
      StripFree(s[1..], pats);
      assert [s[0]] + s[1..] == s;
    }
  }

  /** A text that contains a closing tag is shortened. */
  lemma {:induction false} StripShortens(s: string, pats: seq<string>, p: string)
    requires NonEmptyPatterns(pats) && p in pats && Includes(s, p)
    ensures |Strip(s, pats)| < |s|
    decreases |s|
  {
    var n := MatchLen(s, pats);
    if n == 0 {
      var i :| 0 <= i <= |s| - |p| && OccursAt(s, p, i);
      assert i != 0;
      assert s[1..][i - 1..i - 1 + |p|] == s[i..i + |p|];
      assert OccursAt(s[1..], p, i - 1);
      StripShortens(s[1..], pats, p);
    } else {
      assert |Strip(s[n..], pats)| <= |s[n..]|;
    }
  }

  /** A stretch at whose every position no pattern starts is kept as it is. */
  lemma {:induction false} StripKeepsPrefix(a: string, b: string, pats: seq<string>)
    requires NonEmptyPatterns(pats)
    requires forall i :: 0 <= i < |a| ==> MatchLen((a + b)[i..], pats) == 0
    ensures Strip(a + b, pats) == a + Strip(b, pats)
    decreases |a|
  {
    if a != [] {
      var s := a + b;
      assert s[0..] == s;
      assert Strip(s, pats) == [s[0]] + Strip(s[1..], pats);
      assert s[1..] == a[1..] + b;
      ShiftedFree(a, b, pats);
      StripKeepsPrefix(a[1..], b, pats);
      ConsAppend(a, Strip(b, pats));
    } else {
      assert a + b == b;
    }
  }

  /** Dropping the first character of a match-free stretch leaves one. */
  lemma ShiftedFree(a: string, b: string, pats: seq<string>)
    requires NonEmptyPatterns(pats) && a != []
    requires forall i :: 0 <= i < |a| ==> MatchLen((a + b)[i..], pats) == 0
    ensures forall i :: 0 <= i < |a[1..]| ==> MatchLen((a[1..] + b)[i..], pats) == 0
  {
    forall i | 0 <= i < |a[1..]|
      ensures MatchLen((a[1..] + b)[i..], pats) == 0
    {
      assert (a[1..] + b)[i..] == (a + b)[i + 1..];
    }
  }

  /** Re-attaching the first character of a non-empty prefix. */
  lemma ConsAppend(a: string, t: string)
    requires a != []
    ensures [a[0]] + (a[1..] + t) == a + t
  {
    assert a == [a[0]] + a[1..];
  }

  /** No closing tag starts inside the first half of the sample text. */
  lemma NoTagInHead()
    ensures forall i :: 0 <= i < |CloseHead| ==> MatchLen((CloseHead + (Close + CloseTail))[i..], [Close]) == 0
  {
    var s := CloseHead + (Close + CloseTail);
    forall i | 0 <= i < |CloseHead|
      ensures MatchLen(s[i..], [Close]) == 0
    {
      assert s[i..][9 - i] == '<' && Close[9 - i] != '<';
    }
  }

  /** The inner tag is dropped and the rest has no room for another. */
  lemma InnerTagDropped()
    ensures Strip(Close + CloseTail, [Close]) == CloseTail
  {
    assert OccursAt(Close + CloseTail, Close, 0);
    assert (Close + CloseTail)[|Close|..] == CloseTail;
    assert !Includes(CloseTail, Close);
    StripFree(CloseTail, [Close]);
  }

  /**
   * One pass is not enough: in "</text_to</text_to_translate>_translate>"
   * removing the inner closing tag joins its two halves into a new one, which
   * then reaches the model inside the prompt.
   */
  lemma SanitizeCanFormTag()
    ensures Sanitize(CloseHead + Close + CloseTail) == Close
    ensures Includes(Sanitize(CloseHead + Close + CloseTail), Close)
  {
    assert CloseHead + Close + CloseTail == CloseHead + (Close + CloseTail);
    NoTagInHead();
    StripKeepsPrefix(CloseHead, Close + CloseTail, [Close]);
    InnerTagDropped();
    assert OccursAt(Close, Close, 0);
  }

  /** The user message sent to the model: the sanitised text between the two tags. */
  function Prompt(content: string): (r: string)
    ensures |r| == |Open| + |Sanitize(content)| + |Close|
    ensures r[..|Open|] == Open && r[|r| - |Close|..] == Close
    ensures r[|Open|..|r| - |Close|] == Sanitize(content)
  {
    Open + Sanitize(content) + Close
  }

  /** A text without closing tags reaches the model verbatim between the tags. */
  lemma PromptOfTagFree(content: string)
    requires !Includes(content, Close)
    ensures Prompt(content) == Open + content + Close
  {
  }

  /** The JSON bodies of the replies. */
  datatype Body = NothingToTranslate | Failed(error: string) | Done(translated: string)

  /** The `update({ content_translated })` of the message with the record's id. */
  datatype Update = Update(id: Value, contentTranslated: string)

  /** What one invocation does: the reply, the prompt sent (if any) and the update made (if any). */
  datatype Outcome = Outcome(status: nat, body: Body, prompt: Option<string>, update: Option<Update>)

  /** `!record || !record.content_original || !record.id`. */
  predicate NothingToDo(record: Option<Record>) {
    record.None? || !Truthy(record.value, "content_original") || !Truthy(record.value, "id")
  }

  /**
   * One invocation. `record` is the payload's `record` (None when absent),
   * `apiKeySet` whether the key is configured, `fetchError` a rejected request,
   * `reply` the first choice's message content, and `updateError` the
   * database's error, if any.
   */
  function Handle(record: Option<Record>, apiKeySet: bool, fetchError: Option<string>,
                  reply: Option<string>, updateError: Option<string>): (o: Outcome)
    ensures NothingToDo(record) <==> o.body == NothingToTranslate
    ensures NothingToDo(record) ==> o == Outcome(200, NothingToTranslate, None, None)
    ensures o.prompt.Some? ==>
      record.Some? && "content_original" in record.value && record.value["content_original"].Str? &&
      o.prompt.value == Prompt(record.value["content_original"].s)
    ensures o.update.Some? ==>
      o.prompt.Some? && fetchError.None? && reply.Some? && !IsBlank(reply.value) &&
      o.update.value == Update(record.value["id"], Trim(Cleanup(Trim(reply.value))))
    ensures o.status == 200 <==> o.body.NothingToTranslate? || o.body.Done?
    ensures o.body.Done? ==> o.update.Some? && updateError.None? && o.body.translated == o.update.value.contentTranslated
    ensures o.prompt.Some? && fetchError.None? && (reply.None? || IsBlank(reply.value)) ==>
      o == Outcome(500, Failed("Translation failed"), o.prompt, None)
    ensures !NothingToDo(record) && !apiKeySet ==> o == Outcome(500, Failed("GROQ_API_KEY is not set"), None, None)
    ensures !NothingToDo(record) && apiKeySet && record.value["content_original"].Str? ==>
      o.prompt == Some(Prompt(record.value["content_original"].s))
    ensures !NothingToDo(record) && apiKeySet && !record.value["content_original"].Str? ==>
      o.prompt.None? && o.update.None? && o.status == 500
    ensures o.prompt.Some? && fetchError.Some? ==> o == Outcome(500, Failed(fetchError.value), o.prompt, None)
    ensures o.prompt.Some? && fetchError.None? && reply.Some? && !IsBlank(reply.value) ==>
      o.update == Some(Update(record.value["id"], Trim(Cleanup(Trim(reply.value))))) &&
      (updateError.None? ==> o.status == 200 && o.body == Done(o.update.value.contentTranslated)) &&
      (updateError.Some? ==> o.status == 500 && o.body == Failed(updateError.value))
  {
    if NothingToDo(record) then Outcome(200, NothingToTranslate, None, None)
    else if !apiKeySet then Outcome(500, Failed("GROQ_API_KEY is not set"), None, None)
    else if !record.value["content_original"].Str? then
      Outcome(500, Failed("record.content_original.replace is not a function"), None, None)
    else
      var prompt := Prompt(record.value["content_original"].s);
      if fetchError.Some? then Outcome(500, Failed(fetchError.value), Some(prompt), None)
      else if reply.None? || Trim(reply.value) == "" then
        Outcome(500, Failed("Translation failed"), Some(prompt), None)
      else
        var update := Update(record.value["id"], Trim(Cleanup(Trim(reply.value))));
        if updateError.Some? then Outcome(500, Failed(updateError.value), Some(prompt), Some(update))
        else Outcome(200, Done(update.contentTranslated), Some(prompt), Some(update))
  }

  /** Trimming leaves the two tags alone. */
  lemma TagsTrimmed()
    ensures Trim(Open + Close) == Open + Close
  {
    var t := Open + Close;
    assert !IsSpace(t[0]) && !IsSpace(t[|t| - 1]);
  }

  /** The cleanup removes both tags. */
  lemma TagsCleaned()
    ensures Cleanup(Open + Close) == ""
  {
    var t := Open + Close;
    assert OccursAt(t, Open, 0);
    assert t[|Open|..] == Close;
    assert !OccursAt(Close, Open, 0) by {
      assert Close[1] != Open[1];
    }
    assert OccursAt(Close, Close, 0);
    assert MatchLen(Close, [Open, Close]) == |Close| by {
      assert [Open, Close][1..] == [Close];
    }
    assert Strip(Close, [Open, Close]) == Strip([], [Open, Close]) by {
      assert Close[|Close|..] == [];
    }
    assert MatchLen(t, [Open, Close]) == |Open|;
  }

  /** A reply made of nothing but the two tags passes the emptiness check and is stored as an empty translation. */
  lemma TagOnlyReplyStoresEmpty(record: Record)
    requires !NothingToDo(Some(record)) && record["content_original"].Str?
    ensures Handle(Some(record), true, None, Some(Open + Close), None) ==
      Outcome(200, Done(""), Some(Prompt(record["content_original"].s)), Some(Update(record["id"], "")))
  {
    TagOnlyReplyCleaned();
  }

  /** The tag-only reply is not blank, and what is left of it after the cleanup is empty. */
  lemma TagOnlyReplyCleaned()
    ensures !IsBlank(Open + Close) && Trim(Cleanup(Trim(Open + Close))) == ""
  {
    TagsTrimmed();
    CleanedTagsTrimmed();
  }

  lemma CleanedTagsTrimmed()
    ensures Trim(Cleanup(Open + Close)) == ""
  {
    TagsCleaned();
    assert Trim("") == "";
  }
}
