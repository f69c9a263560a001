/**
 * Choosing where a send goes, and building what is sent there.
 *
 * The window.ai extension is used when it is enabled and its handle is
 * present; when it is enabled without a handle the send is dropped before
 * anything happens. Otherwise a non-empty OpenRouter key selects the hosted
 * endpoint, and with neither the send fails.
 */
module Backend {
  import opened ChatTypes

  datatype Backend =
    | ExtensionNotReady  // window.ai enabled but not loaded: return early
    | Extension          // window.ai generateText
    | Hosted             // POST to the OpenRouter-backed endpoint
    | Unconfigured       // neither: 'Must use OpenRouter or Window AI'

  const NO_BACKEND_ERROR: string := "Must use OpenRouter or Window AI"
  const GOOGLE_SEARCH: string := "google-search"
  const GOOGLE_API_KEY: string := "GOOGLE_API_KEY"
  const GOOGLE_CSE_ID: string := "GOOGLE_CSE_ID"
  const EXTENSION_MAX_TOKENS: nat := 1000

  /**
   * The backend decision, in the order the send flow tests it. The key is
   * a string whose empty value stands for an absent (falsy) key.
   */
  function SelectBackend(windowaiEnabled: bool, windowaiPresent: bool, openrouterApiKey: string): (b: Backend)
    ensures b == ExtensionNotReady <==> windowaiEnabled && !windowaiPresent
    ensures b == Extension <==> windowaiEnabled && windowaiPresent
    ensures b == Hosted <==> !windowaiEnabled && openrouterApiKey != ""
    ensures b == Unconfigured <==> !windowaiEnabled && openrouterApiKey == ""
  {
    if windowaiEnabled && !windowaiPresent then ExtensionNotReady
    else if windowaiEnabled && windowaiPresent then Extension
    else if openrouterApiKey != "" then Hosted
    else Unconfigured
  }

  /** `Array.prototype.find`, by position: the first index whose element satisfies `p`. */
  function FindIndex<T>(s: seq<T>, p: T -> bool): (r: Option<nat>)
    ensures r.Some? ==> r.value < |s| && p(s[r.value]) && forall j :: 0 <= j < r.value ==> !p(s[j])
    ensures r.None? ==> forall j :: 0 <= j < |s| ==> !p(s[j])
  {
    if s == [] then None
    else if p(s[0]) then Some(0)
    else match FindIndex(s[1..], p)
      case None => None
      case Some(k) => Some(k + 1)
  }

  /**
   * The value of the credential `keyName` of the google-search plugin: the
   * first google-search entry is taken, and in it the first credential with
   * that name.
   */
  function GoogleCredential(pluginKeys: seq<PluginKey>, keyName: string): (v: Option<string>)
    // a credential sent is stored under that name in the first google-search entry
    ensures v.Some? ==> exists i, j ::
      && 0 <= i < |pluginKeys| && pluginKeys[i].pluginId == GOOGLE_SEARCH
      && (forall k :: 0 <= k < i ==> pluginKeys[k].pluginId != GOOGLE_SEARCH)
      && 0 <= j < |pluginKeys[i].requiredKeys| && pluginKeys[i].requiredKeys[j] == KeyValue(keyName, v.value)
    // none is sent only when no google-search entry holding the name comes first
    ensures v.None? ==> forall i, j ::
      && 0 <= i < |pluginKeys| && pluginKeys[i].pluginId == GOOGLE_SEARCH
      && 0 <= j < |pluginKeys[i].requiredKeys| && pluginKeys[i].requiredKeys[j].key == keyName
      ==> exists k :: 0 <= k < i && pluginKeys[k].pluginId == GOOGLE_SEARCH
  {
    match FindIndex(pluginKeys, (k: PluginKey) => k.pluginId == GOOGLE_SEARCH)
    case None => None
    case Some(i) =>
      var required := pluginKeys[i].requiredKeys;
      match FindIndex(required, (kv: KeyValue) => kv.key == keyName)
      case None => None
      case Some(j) => Some(required[j].value)
  }

  /** The first google-search entry's first credential named `keyName` is the one used. */
  lemma GoogleCredentialFound(pluginKeys: seq<PluginKey>, keyName: string, i: nat, j: nat)
    requires i < |pluginKeys| && pluginKeys[i].pluginId == GOOGLE_SEARCH
    requires forall k :: 0 <= k < i ==> pluginKeys[k].pluginId != GOOGLE_SEARCH
    requires j < |pluginKeys[i].requiredKeys| && pluginKeys[i].requiredKeys[j].key == keyName
    requires forall k :: 0 <= k < j ==> pluginKeys[i].requiredKeys[k].key != keyName
    ensures GoogleCredential(pluginKeys, keyName) == Some(pluginKeys[i].requiredKeys[j].value)
  {
    var isGoogle := (k: PluginKey) => k.pluginId == GOOGLE_SEARCH;
    var named := (kv: KeyValue) => kv.key == keyName;
    assert isGoogle(pluginKeys[i]);
    assert named(pluginKeys[i].requiredKeys[j]);
  }

  /**
   * When the first google-search entry lacks the credential, none is sent,
   * even if a later google-search entry holds it.
   */
  lemma GoogleCredentialShadowed(pluginKeys: seq<PluginKey>, keyName: string, i: nat)
    requires i < |pluginKeys| && pluginKeys[i].pluginId == GOOGLE_SEARCH
    requires forall k :: 0 <= k < i ==> pluginKeys[k].pluginId != GOOGLE_SEARCH
    requires forall k :: 0 <= k < |pluginKeys[i].requiredKeys| ==> pluginKeys[i].requiredKeys[k].key != keyName
    ensures GoogleCredential(pluginKeys, keyName) == None
  {
    var isGoogle := (k: PluginKey) => k.pluginId == GOOGLE_SEARCH;
    assert isGoogle(pluginKeys[i]);
  }

  /** Without a google-search entry no credential is sent. */
  lemma GoogleCredentialAbsent(pluginKeys: seq<PluginKey>, keyName: string)
    requires forall k :: 0 <= k < |pluginKeys| ==> pluginKeys[k].pluginId != GOOGLE_SEARCH
    ensures GoogleCredential(pluginKeys, keyName) == None
  {
  }

  /** The request body of a send; the google fields are present only for a plugin. */
  datatype ChatBody = ChatBody(
    model: string,
    messages: seq<Message>,
    key: string,
    prompt: string,
    temperature: real,
    googleApiKey: Option<string>,
    googleCseId: Option<string>)

  /** What leaves the client: an extension call or a hosted POST. */
  datatype Request =
    | ExtensionCall(messages: seq<Message>, temperature: real, maxTokens: nat)
    | HostedPost(plugin: Option<Plugin>, body: ChatBody)

  /** The body built from the composed conversation, the key and, for a plugin, its credentials. */
  function MakeChatBody(conv: Conversation, openrouterApiKey: string, plugin: Option<Plugin>, pluginKeys: seq<PluginKey>): (b: ChatBody)
    ensures b.messages == conv.messages && b.model == conv.model && b.prompt == conv.prompt
    ensures b.temperature == conv.temperature && b.key == openrouterApiKey
    ensures plugin.None? ==> b.googleApiKey.None? && b.googleCseId.None?
    ensures plugin.Some? ==>
      b.googleApiKey == GoogleCredential(pluginKeys, GOOGLE_API_KEY) && b.googleCseId == GoogleCredential(pluginKeys, GOOGLE_CSE_ID)
  {
    var base := ChatBody(conv.model, conv.messages, openrouterApiKey, conv.prompt, conv.temperature, None, None);
    if plugin.None? then base
    else base.(googleApiKey := GoogleCredential(pluginKeys, GOOGLE_API_KEY),
               googleCseId := GoogleCredential(pluginKeys, GOOGLE_CSE_ID))
  }

  /**
   * The request for the chosen backend: the extension receives the prompt
   * as a leading system message followed by the conversation's messages.
   */
  function MakeRequest(backend: Backend, body: ChatBody, plugin: Option<Plugin>): (r: Option<Request>)
    ensures r.Some? <==> backend == Extension || backend == Hosted
    ensures backend == Extension ==>
      && r.value.ExtensionCall? && |r.value.messages| == |body.messages| + 1
      && r.value.messages[0] == Message(System, body.prompt) && r.value.messages[1..] == body.messages
      && r.value.temperature == body.temperature && r.value.maxTokens == EXTENSION_MAX_TOKENS
    ensures backend == Hosted ==> r == Some(HostedPost(plugin, body))
  {
    match backend
    case Extension => Some(ExtensionCall([Message(System, body.prompt)] + body.messages, body.temperature, EXTENSION_MAX_TOKENS))
    case Hosted => Some(HostedPost(plugin, body))
    case _ => None
  }
}
