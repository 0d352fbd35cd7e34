/**
 * The state the approval flow keeps inside chat messages: the `action:key`
 * callback token of an inline button, and the edit prompt whose text ends with
 * `(ID: key)` so that a later reply can be routed without any storage.
 */
module Tokens {
  import opened Text

  const SendAction: string := "send"
  const EditAction: string := "edit"

  /** The callback data of the two inline buttons. */
  function Token(action: string, key: string): string {
    action + ":" + key
  }

  /** `action, team_key = cb_data.split(":", 1)`, once `":" in cb_data` holds. */
  function SplitToken(data: string): (r: (string, string))
    requires Contains(data, ":")
    ensures Token(r.0, r.1) == data
    ensures !Contains(r.0, ":")
  {
    var parts := SplitOnce(data, ":");
    (parts[0], parts[1])
  }

  /**
   * The token of a button splits back into its action and its key, whatever
   * the key holds, colons included, as long as the action has no colon.
   */
  lemma TokenRoundTrip(action: string, key: string)
    requires !Contains(action, ":")
    ensures Contains(Token(action, key), ":")
    ensures SplitToken(Token(action, key)) == (action, key)
  {
    assert Token(action, key) == action + ":" + key;
    ContainsMiddle(action, ":", key);
    if |action| > 0 {
      assert action[|action| - 1] !in ":" by {
        if action[|action| - 1] == ':' {
          ContainsChar(action, |action| - 1);
        }
      }
    }
    FindAfter(action, ":", key);
    var s := Token(action, key);
    assert s[..|action|] == action && s[|action| + 1..] == key;
  }

  /** The marker that opens the key in an edit prompt. */
  const IdMarker: string := "(ID: "

  const PromptHead: string := "✍️ متن ویرایش شده برای تیم **"
  const PromptTail: string := "** را در پاسخ به این پیام بنویسید.\n\n"

  /** The text before the marker in the edit prompt for a team display name. */
  function PromptBody(teamName: string): string {
    PromptHead + teamName + PromptTail
  }

  /** The force-reply prompt sent when an operator presses "edit" for team `key`. */
  function EditPrompt(teamName: string, key: string): (r: string)
    ensures Contains(r, IdMarker)
    ensures r[|r| - 1] == ')'
  {
    var body := PromptBody(teamName);
    ContainsEnd(body, IdMarker);
    ContainsExtend(body + IdMarker, key + ")", IdMarker);
    assert body + IdMarker + (key + ")") == body + IdMarker + key + ")";
    body + IdMarker + key + ")"
  }

  /** The input-field placeholder of that prompt. */
  function PromptPlaceholder(teamName: string): string {
    "متن برای " + teamName + "..."
  }

  /** `rt.split("(ID: ")[1].split(")")[0]`, once `"(ID: " in rt` holds. */
  function ExtractKey(rt: string): (k: string)
    requires Contains(rt, IdMarker)
    ensures !Contains(k, ")") && !Contains(k, IdMarker)
  {
    var after := Split(rt, IdMarker)[1];
    SplitPartsClean(rt, IdMarker);
    assert !Contains(after, IdMarker);
    if Contains(after, ")") then
      PrefixKeepsAbsence(after, IdMarker, Find(after, ")").value);
      OccurrenceInPrefix(after, ")", Find(after, ")").value);
      Split(after, ")")[0]
    else
      Split(after, ")")[0]
  }

  /** The prompt text before the marker never holds the marker itself if the team name does not. */
  lemma PromptBodyClean(teamName: string)
    requires !Contains(teamName, IdMarker)
    ensures !Contains(PromptBody(teamName), IdMarker)
    ensures PromptBody(teamName)[|PromptBody(teamName)| - 1] !in IdMarker
  {
    assert '(' !in PromptHead && '(' !in PromptTail && PromptTail[0] !in IdMarker;
    NoOccurrenceAround(PromptHead, teamName, PromptTail, IdMarker);
  }

  /**
   * The key a reply is routed by is the key the edit prompt was written for,
   * provided the key holds neither ")" nor the marker and the team name does
   * not hold the marker.
   */
  lemma PromptRoundTrip(teamName: string, key: string)
    requires !Contains(key, ")") && !Contains(key, IdMarker)
    requires !Contains(teamName, IdMarker)
    ensures Contains(EditPrompt(teamName, key), IdMarker)
    ensures ExtractKey(EditPrompt(teamName, key)) == key
  {
    AfterMarker(teamName, key);
    NoMarkerAdded(key);
    UpToParen(key);
  }

  /** Closing a marker-free key with ")" adds no marker. */
  lemma NoMarkerAdded(key: string)
    requires !Contains(key, IdMarker)
    ensures Split(key + ")", IdMarker)[0] == key + ")"
  {
    assert !Contains(")", IdMarker) by {
      MissingFirstChar(")", IdMarker);
    }
    ContainsSplit(key, ")", IdMarker);
  }

  /** In a prompt whose team name is free of the marker, the first marker is the one before the key. */
  lemma AfterMarker(teamName: string, key: string)
    requires !Contains(teamName, IdMarker)
    ensures Contains(EditPrompt(teamName, key), IdMarker)
    ensures Split(EditPrompt(teamName, key), IdMarker)[1] == Split(key + ")", IdMarker)[0]
  {
    var body := PromptBody(teamName);
    var rest := key + ")";
    var rt := EditPrompt(teamName, key);
    assert rt == body + IdMarker + rest;
    PromptBodyClean(teamName);
    FindAfter(body, IdMarker, rest);
    assert rt[|body| + |IdMarker|..] == rest;
  }

  /** Cutting `key + ")"` at its first ")" gives back a key free of ")". */
  lemma UpToParen(key: string)
    requires !Contains(key, ")")
    ensures Split(key + ")", ")")[0] == key
  {
    if |key| > 0 {
      assert key[|key| - 1] !in ")" by {
        if key[|key| - 1] == ')' {
          ContainsChar(key, |key| - 1);
        }
      }
    }
    FindAfter(key, ")", "");
    assert key + ")" == key + ")" + "";
    assert (key + ")")[..|key|] == key;
  }

  /**
   * A key that holds the marker is cut short at it: the extra condition on the
   * key in `PromptRoundTrip` is needed.
   */
  lemma MarkerInKeyIsCut(teamName: string, a: string, b: string)
    requires !Contains(teamName, IdMarker)
    requires !Contains(a, IdMarker) && !Contains(a, ")") && (|a| == 0 || a[|a| - 1] !in IdMarker)
    ensures Contains(EditPrompt(teamName, a + IdMarker + b), IdMarker)
    ensures ExtractKey(EditPrompt(teamName, a + IdMarker + b)) == a
  {
    var rest := a + IdMarker + b + ")";
    AfterMarker(teamName, a + IdMarker + b);
    assert rest == a + IdMarker + (b + ")");
    FindAfter(a, IdMarker, b + ")");
    assert Split(rest, IdMarker)[0] == a;
    UpToParen(a);
  }
}
