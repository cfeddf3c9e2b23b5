/**
 * step.go: the oldest generation, which posts a form-encoded payload to an
 * incoming webhook. The process environment is the map `env`; a variable
 * that is not set reads as "". The console output and the request itself
 * are not modelled.
 */
module StepGo {
  import opened Wrappers
  import opened Errors
  import opened Json

  type Env = map<string, string>

  /** os.Getenv: the value of a variable, "" when it is not set. */
  function Getenv(env: Env, key: string): (v: string)
    ensures key !in env ==> v == ""
    ensures key in env ==> v == env[key]
  {
    if key in env then env[key] else ""
  }

  /**
   * The failed-mode test of main (step.go:104): only a status of exactly
   * "0" counts as success, so an unset status puts step.go in failed mode.
   */
  predicate IsBuildFailedMode(env: Env): (failed: bool)
    ensures "STEPLIB_BUILD_STATUS" !in env ==> failed
    ensures !failed <==> "STEPLIB_BUILD_STATUS" in env && env["STEPLIB_BUILD_STATUS"] == "0"
  {
    Getenv(env, "STEPLIB_BUILD_STATUS") != "0"
  }

  /** RequestParams: the text and four optional members (a nil pointer is None). */
  datatype RequestParams = RequestParams(
    text: string,
    channel: Option<string>,
    username: Option<string>,
    emojiIcon: Option<string>,
    iconURL: Option<string>
  )

  /** A variable's value as an optional member: set exactly when not empty. */
  function Present(v: string): (r: Option<string>)
    ensures r.Some? <==> v != ""
    ensures r.Some? ==> r.value == v
  {
    if v == "" then None else Some(v)
  }

  /**
   * The value chosen for a member with an on-error variant: in failed mode
   * a non-empty on-error value wins; otherwise the primary value when it is
   * not empty.
   */
  function Chosen(env: Env, key: string, onErrorKey: string, failed: bool): (r: Option<string>)
    ensures r.Some? ==> r.value != ""
    ensures failed && Getenv(env, onErrorKey) != "" ==> r == Some(Getenv(env, onErrorKey))
    ensures !(failed && Getenv(env, onErrorKey) != "") ==> r == Present(Getenv(env, key))
  {
    if failed && Getenv(env, onErrorKey) != "" then Some(Getenv(env, onErrorKey))
    else Present(Getenv(env, key))
  }

  /**
   * The parameters CreatePayloadParam settles on, member by member: the
   * text, overridden in failed mode by a non-empty message_on_error; the
   * channel when set, with no on-error variant; the user name, the emoji
   * and the icon URL as Chosen gives them, except that an icon URL drops
   * the emoji.
   */
  function Params(env: Env, failed: bool): (p: RequestParams)
    ensures !(p.iconURL.Some? && p.emojiIcon.Some?)
    ensures p.channel.Some? <==> Getenv(env, "channel") != ""
    ensures p.text == Getenv(env, "message") || p.text == Getenv(env, "message_on_error")
  {
    var icon := Chosen(env, "icon_url", "icon_url_on_error", failed);
    var emoji := Chosen(env, "emoji", "emoji_on_error", failed);
    RequestParams(
      if failed && Getenv(env, "message_on_error") != "" then Getenv(env, "message_on_error")
      else Getenv(env, "message"),
      Present(Getenv(env, "channel")),
      Chosen(env, "from_username", "from_username_on_error", failed),
      if icon.Some? then None else emoji,
      icon)
  }

  /**
   * The JSON encoding of RequestParams: every member present, text as a
   * string and an unset optional member as null (the struct has no
   * omitempty tags).
   */
  function ParamsJson(p: RequestParams): (j: map<Key, Json>)
    ensures j.Keys == {Text, Channel, Username, IconEmoji, IconUrl}
    ensures j[Text] == JString(p.text)
    ensures p.channel.None? <==> j[Channel] == JNull
  {
    map[Text := JString(p.text),
        Channel := OptionJson(p.channel),
        Username := OptionJson(p.username),
        IconEmoji := OptionJson(p.emojiIcon),
        IconUrl := OptionJson(p.iconURL)]
  }

  /** A *string member: null when nil, the string otherwise. */
  function OptionJson(v: Option<string>): (j: Json)
    ensures v.None? <==> j == JNull
  {
    match v
    case None => JNull
    case Some(s) => JString(s)
  }

  /** Reading an optional member back. */
  function OptionFromJson(j: Json): Option<string> {
    if j.JString? then Some(j.s) else None
  }

  /** Reading a payload back into RequestParams. */
  function ParamsFromJson(j: map<Key, Json>): RequestParams {
    RequestParams(
      if Text in j && j[Text].JString? then j[Text].s else "",
      if Channel in j then OptionFromJson(j[Channel]) else None,
      if Username in j then OptionFromJson(j[Username]) else None,
      if IconEmoji in j then OptionFromJson(j[IconEmoji]) else None,
      if IconUrl in j then OptionFromJson(j[IconUrl]) else None)
  }

  /** The payload encodes the parameters without loss. */
  lemma ParamsRoundTrip(p: RequestParams)
    ensures ParamsFromJson(ParamsJson(p)) == p
  {
    var j := ParamsJson(p);
    assert j[Channel] == OptionJson(p.channel) && j[Username] == OptionJson(p.username);
    assert j[IconEmoji] == OptionJson(p.emojiIcon) && j[IconUrl] == OptionJson(p.iconURL);
  }

  /**
   * CreatePayloadParam (step.go:24-96): fills the parameters member by
   * member, overriding in failed mode, then drops the emoji when an icon URL
   * is set, and encodes the result. Its error is always nil: the encoding
   * cannot fail, and the branch for a failed encoding returns nil as well.
   */
  method CreatePayloadParam(env: Env, isBuildFailedMode: bool) returns (payload: map<Key, Json>, err: Option<StepError>)
    ensures payload == ParamsJson(Params(env, isBuildFailedMode))
    ensures err.None?
  {
    ghost var target := Params(env, isBuildFailedMode);
    var reqParams := RequestParams(Getenv(env, "message"), None, None, None, None);
    if isBuildFailedMode {
      var failedMsg := Getenv(env, "message_on_error");
      if failedMsg != "" {
        reqParams := reqParams.(text := failedMsg);
      }
    }
    assert reqParams == RequestParams(target.text, None, None, None, None);

    var reqChannel := Getenv(env, "channel");
    if reqChannel != "" {
      reqParams := reqParams.(channel := Some(reqChannel));
    }
    var reqUsername := Getenv(env, "from_username");
    if reqUsername != "" {
      reqParams := reqParams.(username := Some(reqUsername));
    }
    if isBuildFailedMode {
      var failedUsername := Getenv(env, "from_username_on_error");
      if failedUsername != "" {
        reqParams := reqParams.(username := Some(failedUsername));
      }
    }

    assert reqParams == RequestParams(target.text, target.channel, target.username, None, None);

    var reqEmojiIcon := Getenv(env, "emoji");
    if reqEmojiIcon != "" {
      reqParams := reqParams.(emojiIcon := Some(reqEmojiIcon));
    }
    if isBuildFailedMode {
      var failedEmojiIcon := Getenv(env, "emoji_on_error");
      if failedEmojiIcon != "" {
        reqParams := reqParams.(emojiIcon := Some(failedEmojiIcon));
      }
    }

    assert reqParams.emojiIcon == Chosen(env, "emoji", "emoji_on_error", isBuildFailedMode);

    var reqIconURL := Getenv(env, "icon_url");
    if reqIconURL != "" {
      reqParams := reqParams.(iconURL := Some(reqIconURL));
    }
    if isBuildFailedMode {
      var failedIconURL := Getenv(env, "icon_url_on_error");
      if failedIconURL != "" {
        reqParams := reqParams.(iconURL := Some(failedIconURL));
      }
    }
    assert reqParams.iconURL == target.iconURL;
    if reqParams.iconURL.Some? {
      reqParams := reqParams.(emojiIcon := None);
    }
    assert reqParams == target;

    payload := ParamsJson(reqParams);
    err := None;
  }

  /**
   * The text is message, unless the build failed and message_on_error is
   * set, in which case it is message_on_error.
   */
  lemma TextRule(env: Env, failed: bool)
    ensures failed && Getenv(env, "message_on_error") != "" ==>
              Params(env, failed).text == Getenv(env, "message_on_error")
    ensures !(failed && Getenv(env, "message_on_error") != "") ==>
              Params(env, failed).text == Getenv(env, "message")
  {
  }

  /**
   * main (step.go:104-108) with no build status set: the payload is built
   * in failed mode, so a set message_on_error is the text sent.
   */
  lemma UnsetStatusSendsOnError(env: Env)
    requires "STEPLIB_BUILD_STATUS" !in env
    requires Getenv(env, "message_on_error") != ""
    ensures Params(env, IsBuildFailedMode(env)).text == env["message_on_error"]
  {
    TextRule(env, true);
  }

  /** The names of the variables with an on-error variant. */
  const OnErrorKeys: set<string> :=
    {"message_on_error", "from_username_on_error", "emoji_on_error", "icon_url_on_error"}

  /**
   * After a successful build no on-error variable has any effect: two
   * environments that differ only in those give the same parameters.
   */
  lemma SuccessIgnoresOnError(env1: Env, env2: Env)
    requires forall k :: k !in OnErrorKeys ==> Getenv(env1, k) == Getenv(env2, k)
    ensures Params(env1, false) == Params(env2, false)
  {
    assert Getenv(env1, "message") == Getenv(env2, "message");
    assert Getenv(env1, "channel") == Getenv(env2, "channel");
    assert Getenv(env1, "from_username") == Getenv(env2, "from_username");
    assert Getenv(env1, "emoji") == Getenv(env2, "emoji");
    assert Getenv(env1, "icon_url") == Getenv(env2, "icon_url");
  }

  /**
   * A set icon URL, from either variable, always drops the emoji; without
   * one the emoji is chosen like the other members.
   */
  lemma IconUrlDropsEmoji(env: Env, failed: bool)
    ensures var p := Params(env, failed);
      && (p.iconURL.Some? ==> p.emojiIcon.None?)
      && (p.iconURL.None? ==> p.emojiIcon == Chosen(env, "emoji", "emoji_on_error", failed))
      && (Getenv(env, "icon_url") != "" ==> p.iconURL.Some? && p.emojiIcon.None?)
  {
  }

  /**
   * The encoded payload always carries text; it carries the channel as a
   * string exactly when the channel variable is set, and null otherwise,
   * and never both an icon URL and an emoji as strings.
   */
  lemma PayloadShape(env: Env, failed: bool)
    ensures var j := ParamsJson(Params(env, failed));
      && Text in j && j[Text].JString?
      && (j[Channel] == JString(Getenv(env, "channel")) <==> Getenv(env, "channel") != "")
      && (j[Channel] == JNull <==> Getenv(env, "channel") == "")
      && !(j[IconUrl].JString? && j[IconEmoji].JString?)
  {
    var p := Params(env, failed);
    assert ParamsJson(p)[IconUrl] == OptionJson(p.iconURL);
    assert ParamsJson(p)[IconEmoji] == OptionJson(p.emojiIcon);
    assert ParamsJson(p)[Channel] == OptionJson(p.channel);
  }
}
