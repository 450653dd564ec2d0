/** android/app/src/main/kotlin/com/example/sloth/AmberSignerPlugin.kt: the
    NIP-55 bridge to an external signer app such as Amber. A request is first
    offered to the signer's content resolver (no popup); on a miss it is sent
    as an intent, and the plugin keeps the caller's reply handle in a single
    pending slot until `onActivityResult` reads and clears it.

    The Android side is an input: whether the plugin holds an application
    context and an activity, the package name stored in the shared
    preferences, and, per call, a `Device` telling what the package manager,
    the content resolver and `startActivityForResult` do. */
module AmberSigner {
  import opened Wrappers

  const RequestCodeSigner: int := 1001
  /** `Activity.RESULT_OK`. */
  const ResultOk: int := -1
  const NostrsignerScheme: string := "nostrsigner"

  /** A Flutter `MethodCall`: the method name and the string arguments it
      carries (an argument absent or `null` is not in the map). */
  datatype MethodCall = MethodCall(name: string, arguments: map<string, string>)

  /** A value a reply carries back to Dart. Response maps have string or
      `null` values. */
  datatype Value = Null | Bool(b: bool) | Str(s: string) | Fields(fields: map<string, Option<string>>)

  datatype Reply =
    | Ok(value: Value)
    | Error(code: string, message: string)
    | NotImplemented

  /** The caller's `Result` object, by identity. */
  type Handle = nat

  /** A reply sent through a handle. */
  datatype Answer = Answer(handle: Handle, reply: Reply)

  /** A content-resolver query: the URI and the projection argument. */
  datatype ResolverQuery = ResolverQuery(uri: string, args: seq<string>)

  /** What a query gives: no cursor (or an exception), or a cursor with its
      column names, each mapped to its value in the first row (`null`
      possible), and whether it has a first row. */
  datatype ResolverReply =
    | Unavailable
    | Cursor(columns: map<string, Option<string>>, hasRow: bool)

  /** What `startActivityForResult` does: start the signer, or throw. */
  datatype LaunchOutcome = Started | ActivityNotFound(message: string) | Failed(message: string)

  datatype Device = Device(signerInstalled: bool, resolver: ResolverQuery -> ResolverReply, launch: LaunchOutcome)

  /** The intent sent to the signer: data URI, target package and string
      extras (the activity flags are not modelled). */
  datatype SignerIntent = SignerIntent(uri: string, package: Option<string>, extras: map<string, string>)

  /** A signature from the content resolver; either part may be `null`. */
  datatype SignHit = SignHit(signature: Option<string>, event: Option<string>)

  // --- argument validation --------------------------------------------------

  /** A method call after `onMethodCall`'s argument checks. */
  datatype Request =
    | IsExternalSignerInstalled
    | GetPublicKey(permissions: Option<string>)
    | SignEvent(eventJson: string, id: string, currentUser: string)
    | Crypt(cryptType: string, content: string, pubkey: string, currentUser: string, id: string)
    | GetSignerPackageName
    | SetSignerPackageName(packageName: string)
    | MissingArgument(name: string)
    | Unknown

  function Arg(call: MethodCall, name: string): Option<string> {
    if name in call.arguments then Some(call.arguments[name]) else None
  }

  /** `call.argument<String>(name) ?: ""`. */
  function ArgOrEmpty(call: MethodCall, name: string): string {
    if name in call.arguments then call.arguments[name] else ""
  }

  /** The crypto methods: channel method name, intent type, and the name of
      the content argument. */
  function CryptMethod(channelMethod: string): Option<(string, string)> {
    if channelMethod == "nip04Encrypt" then Some(("nip04_encrypt", "plaintext"))
    else if channelMethod == "nip04Decrypt" then Some(("nip04_decrypt", "encryptedText"))
    else if channelMethod == "nip44Encrypt" then Some(("nip44_encrypt", "plaintext"))
    else if channelMethod == "nip44Decrypt" then Some(("nip44_decrypt", "encryptedText"))
    else None
  }

  /** The dispatch and argument checks of `onMethodCall`. Required arguments
      are checked in order and the first one missing is reported; optional
      ones default to the empty string. */
  function ParseCall(call: MethodCall): (r: Request)
    ensures r.MissingArgument? ==> r.name in {"eventJson", "plaintext", "encryptedText", "pubkey", "packageName"}
    ensures r.MissingArgument? ==> r.name !in call.arguments
    ensures r.Unknown? <==>
              call.name !in {"isExternalSignerInstalled", "getPublicKey", "signEvent", "nip04Encrypt",
                               "nip04Decrypt", "nip44Encrypt", "nip44Decrypt", "getSignerPackageName",
                               "setSignerPackageName"}
    ensures r.SignEvent? ==> call.name == "signEvent" && "eventJson" in call.arguments
    ensures r.Crypt? ==> CryptMethod(call.name).Some? && r.cryptType == CryptMethod(call.name).value.0
                         && "pubkey" in call.arguments && CryptMethod(call.name).value.1 in call.arguments
    ensures r.SetSignerPackageName? ==> call.name == "setSignerPackageName" && "packageName" in call.arguments
    // A known method with its required arguments yields its own request,
    // carrying the call's values; optional ones default to "".
    ensures call.name == "isExternalSignerInstalled" ==> r == IsExternalSignerInstalled
    ensures call.name == "getPublicKey" ==> r == GetPublicKey(Arg(call, "permissions"))
    ensures call.name == "signEvent" && "eventJson" in call.arguments ==>
              r.SignEvent? && r.eventJson == call.arguments["eventJson"]
              && r.id == ArgOrEmpty(call, "id") && r.currentUser == ArgOrEmpty(call, "currentUser")
    ensures CryptMethod(call.name).Some? && CryptMethod(call.name).value.1 in call.arguments
            && "pubkey" in call.arguments ==>
              r.Crypt? && r.cryptType == CryptMethod(call.name).value.0
              && r.content == call.arguments[CryptMethod(call.name).value.1]
              && r.pubkey == call.arguments["pubkey"]
              && r.currentUser == ArgOrEmpty(call, "currentUser") && r.id == ArgOrEmpty(call, "id")
    ensures call.name == "getSignerPackageName" ==> r == GetSignerPackageName
    ensures call.name == "setSignerPackageName" && "packageName" in call.arguments ==>
              r.SetSignerPackageName? && r.packageName == call.arguments["packageName"]
    // A missing required argument is reported under the name this method
    // needs, the content argument before `pubkey`.
    ensures call.name == "signEvent" && "eventJson" !in call.arguments ==> r == MissingArgument("eventJson")
    ensures call.name == "setSignerPackageName" && "packageName" !in call.arguments ==>
              r == MissingArgument("packageName")
    ensures CryptMethod(call.name).Some? && CryptMethod(call.name).value.1 !in call.arguments ==>
              r == MissingArgument(CryptMethod(call.name).value.1)
    ensures CryptMethod(call.name).Some? && CryptMethod(call.name).value.1 in call.arguments
            && "pubkey" !in call.arguments ==>
              r == MissingArgument("pubkey")
  {
    var m := call.name;
    if m == "isExternalSignerInstalled" then IsExternalSignerInstalled
    else if m == "getPublicKey" then GetPublicKey(Arg(call, "permissions"))
    else if m == "signEvent" then
      match Arg(call, "eventJson")
      case None => MissingArgument("eventJson")
      case Some(eventJson) => SignEvent(eventJson, ArgOrEmpty(call, "id"), ArgOrEmpty(call, "currentUser"))
    else if CryptMethod(m).Some? then
      var (cryptType, contentName) := CryptMethod(m).value;
      match Arg(call, contentName)
      case None => MissingArgument(contentName)
      case Some(content) =>
        match Arg(call, "pubkey")
        case None => MissingArgument("pubkey")
        case Some(pubkey) => Crypt(cryptType, content, pubkey, ArgOrEmpty(call, "currentUser"), ArgOrEmpty(call, "id"))
    else if m == "getSignerPackageName" then GetSignerPackageName
    else if m == "setSignerPackageName" then
      match Arg(call, "packageName")
      case None => MissingArgument("packageName")
      case Some(packageName) => SetSignerPackageName(packageName)
    else Unknown
  }

  /** The argument checks are exact: each method is rejected exactly when one
      of its required arguments is missing, and the content argument is
      checked before `pubkey`. */
  lemma RequiredArguments(call: MethodCall)
    ensures call.name == "signEvent" ==>
              (ParseCall(call).MissingArgument? <==> "eventJson" !in call.arguments)
              && ("eventJson" !in call.arguments ==> ParseCall(call) == MissingArgument("eventJson"))
    ensures call.name == "setSignerPackageName" ==>
              (ParseCall(call).MissingArgument? <==> "packageName" !in call.arguments)
              && ("packageName" !in call.arguments ==> ParseCall(call) == MissingArgument("packageName"))
    ensures CryptMethod(call.name).Some? ==>
              var contentName := CryptMethod(call.name).value.1;
              (ParseCall(call).MissingArgument? <==> contentName !in call.arguments || "pubkey" !in call.arguments)
              && (contentName !in call.arguments ==> ParseCall(call) == MissingArgument(contentName))
              && (contentName in call.arguments && "pubkey" !in call.arguments ==>
                    ParseCall(call) == MissingArgument("pubkey"))
    ensures call.name in {"isExternalSignerInstalled", "getPublicKey", "getSignerPackageName"} ==>
              !ParseCall(call).MissingArgument?
  {
  }

  // --- content resolver -----------------------------------------------------

  /** The resolver path of an intent type; any other type has none. */
  function ResolverPath(cryptType: string): (p: Option<string>)
    ensures p.Some? <==> cryptType in {"nip04_encrypt", "nip04_decrypt", "nip44_encrypt", "nip44_decrypt"}
    ensures cryptType == "nip04_encrypt" ==> p == Some("NIP04_ENCRYPT")
    ensures cryptType == "nip04_decrypt" ==> p == Some("NIP04_DECRYPT")
    ensures cryptType == "nip44_encrypt" ==> p == Some("NIP44_ENCRYPT")
    ensures cryptType == "nip44_decrypt" ==> p == Some("NIP44_DECRYPT")
  {
    if cryptType == "nip04_encrypt" then Some("NIP04_ENCRYPT")
    else if cryptType == "nip04_decrypt" then Some("NIP04_DECRYPT")
    else if cryptType == "nip44_encrypt" then Some("NIP44_ENCRYPT")
    else if cryptType == "nip44_decrypt" then Some("NIP44_DECRYPT")
    else None
  }

  /** Distinct types have distinct paths. */
  lemma ResolverPathInjective(a: string, b: string)
    requires ResolverPath(a).Some? && ResolverPath(a) == ResolverPath(b)
    ensures a == b
  {
  }

  /** Every type the four channel methods produce has a resolver path, and
      each method reaches the path of its own name. */
  lemma CryptMethodsHavePaths(channelMethod: string)
    requires CryptMethod(channelMethod).Some?
    ensures ResolverPath(CryptMethod(channelMethod).value.0).Some?
    ensures channelMethod == "nip04Encrypt" ==> ResolverPath(CryptMethod(channelMethod).value.0) == Some("NIP04_ENCRYPT")
    ensures channelMethod == "nip04Decrypt" ==> ResolverPath(CryptMethod(channelMethod).value.0) == Some("NIP04_DECRYPT")
    ensures channelMethod == "nip44Encrypt" ==> ResolverPath(CryptMethod(channelMethod).value.0) == Some("NIP44_ENCRYPT")
    ensures channelMethod == "nip44Decrypt" ==> ResolverPath(CryptMethod(channelMethod).value.0) == Some("NIP44_DECRYPT")
  {
  }

  /** The signer's `SIGN_EVENT` endpoint, with the event JSON and the current
      user as the projection (the middle slot, a public key, is unused). */
  function SignQuery(packageName: string, eventJson: string, currentUser: string): (q: ResolverQuery)
    ensures q.uri == ResolverAuthority(packageName) + "SIGN_EVENT"
    ensures |q.args| == 3 && q.args[0] == eventJson && q.args[1] == "" && q.args[2] == currentUser
  {
    ResolverQuery("content://" + packageName + ".SIGN_EVENT", [eventJson, "", currentUser])
  }

  /** The URI prefix naming the signer app's content provider. */
  function ResolverAuthority(packageName: string): string {
    "content://" + packageName + "."
  }

  /** `trySignEventViaContentResolver`: a hit needs a context, a cursor with
      no `rejected` column, a first row and a `result` column; the values
      read may be `null`. */
  function SignResolverHit(hasContext: bool, resolver: ResolverQuery -> ResolverReply,
                           eventJson: string, currentUser: string, packageName: string): (r: Option<SignHit>)
    ensures var reply := resolver(SignQuery(packageName, eventJson, currentUser));
            r.Some? <==> hasContext && reply.Cursor? && "rejected" !in reply.columns
                         && reply.hasRow && "result" in reply.columns
    ensures r.Some? ==>
              var columns := resolver(SignQuery(packageName, eventJson, currentUser)).columns;
              r.value.signature == columns["result"]
              && r.value.event == (if "event" in columns then columns["event"] else None)
  {
    if !hasContext then None
    else
      match resolver(SignQuery(packageName, eventJson, currentUser))
      case Unavailable => None
      case Cursor(columns, hasRow) =>
        if "rejected" in columns then None
        else if hasRow && "result" in columns then
          Some(SignHit(columns["result"], if "event" in columns then columns["event"] else None))
        else None
  }

  /** The signer's endpoint for `path`, with the content, the counterparty
      key and the current user as the projection. */
  function CryptQuery(packageName: string, path: string, content: string, pubkey: string, currentUser: string): (q: ResolverQuery)
    ensures q.uri == ResolverAuthority(packageName) + path
    ensures |q.args| == 3 && q.args[0] == content && q.args[1] == pubkey && q.args[2] == currentUser
  {
    ResolverQuery("content://" + packageName + "." + path, [content, pubkey, currentUser])
  }

  lemma SamePrefix(prefix: string, a: string, b: string)
    requires prefix + a == prefix + b
    ensures a == b
  {
    assert a == (prefix + a)[|prefix|..];
    assert b == (prefix + b)[|prefix|..];
  }

  /** Each request reaches its own endpoint of the signer app: signing and the
      four encrypt/decrypt types query five different URIs. */
  lemma QueryUrisDistinct(packageName: string, cryptType: string, otherType: string,
                          eventJson: string, content: string, pubkey: string, currentUser: string)
    requires ResolverPath(cryptType).Some? && ResolverPath(otherType).Some?
    ensures SignQuery(packageName, eventJson, currentUser).uri
            != CryptQuery(packageName, ResolverPath(cryptType).value, content, pubkey, currentUser).uri
    ensures CryptQuery(packageName, ResolverPath(cryptType).value, content, pubkey, currentUser).uri
            == CryptQuery(packageName, ResolverPath(otherType).value, content, pubkey, currentUser).uri
            ==> cryptType == otherType
  {
    var authority := ResolverAuthority(packageName);
    var path, other := ResolverPath(cryptType).value, ResolverPath(otherType).value;
    if authority + "SIGN_EVENT" == authority + path {
      SamePrefix(authority, "SIGN_EVENT", path);
    }
    if authority + path == authority + other {
      SamePrefix(authority, path, other);
      ResolverPathInjective(cryptType, otherType);
    }
  }

  /** `tryEncryptDecryptViaContentResolver`: as for signing, and besides an
      unknown type or a `null` result is a miss. */
  function CryptResolverHit(hasContext: bool, resolver: ResolverQuery -> ResolverReply, cryptType: string,
                            content: string, pubkey: string, currentUser: string, packageName: string): (r: Option<string>)
    ensures r.Some? ==> hasContext && ResolverPath(cryptType).Some?
    ensures hasContext && ResolverPath(cryptType).Some? ==>
              var reply := resolver(CryptQuery(packageName, ResolverPath(cryptType).value, content, pubkey, currentUser));
              (r.Some? <==> reply.Cursor? && "rejected" !in reply.columns && reply.hasRow
                            && "result" in reply.columns && reply.columns["result"].Some?)
              && (r.Some? ==> r == reply.columns["result"])
  {
    if !hasContext then None
    else
      match ResolverPath(cryptType)
      case None => None
      case Some(path) =>
        match resolver(CryptQuery(packageName, path, content, pubkey, currentUser))
        case Unavailable => None
        case Cursor(columns, hasRow) =>
          if "rejected" in columns then None
          else if hasRow && "result" in columns then columns["result"]
          else None
  }

  // --- intents ------------------------------------------------------------

  function OptionalExtra(key: string, value: string): map<string, string> {
    if value == "" then map[] else map[key := value]
  }

  function PublicKeyIntent(permissions: Option<string>): (i: SignerIntent)
    ensures i.uri == NostrsignerScheme + ":" && i.package.None?
    ensures i.extras.Keys <= {"type", "permissions"}
    ensures "type" in i.extras && i.extras["type"] == "get_public_key"
    ensures "permissions" in i.extras <==> permissions.Some? && permissions.value != ""
    ensures "permissions" in i.extras ==> i.extras["permissions"] == permissions.value
  {
    var extra := match permissions case Some(p) => OptionalExtra("permissions", p) case None => map[];
    SignerIntent(NostrsignerScheme + ":", None, map["type" := "get_public_key"] + extra)
  }

  function SignIntent(eventJson: string, packageName: string, id: string, currentUser: string): (i: SignerIntent)
    ensures i.uri == NostrsignerScheme + ":" + eventJson && i.package == Some(packageName)
    ensures i.extras.Keys <= {"type", "id", "current_user"}
    ensures "type" in i.extras && "id" in i.extras
    ensures i.extras["type"] == "sign_event" && i.extras["id"] == id
    ensures "current_user" in i.extras <==> currentUser != ""
    ensures "current_user" in i.extras ==> i.extras["current_user"] == currentUser
  {
    SignerIntent(NostrsignerScheme + ":" + eventJson, Some(packageName),
      map["type" := "sign_event", "id" := id] + OptionalExtra("current_user", currentUser))
  }

  function CryptIntent(cryptType: string, content: string, pubkey: string, currentUser: string, id: string,
                       packageName: string): (i: SignerIntent)
    ensures i.uri == NostrsignerScheme + ":" + content && i.package == Some(packageName)
    ensures i.extras.Keys <= {"type", "pubkey", "current_user", "id"}
    ensures "type" in i.extras && "pubkey" in i.extras
    ensures i.extras["type"] == cryptType && i.extras["pubkey"] == pubkey
    ensures "current_user" in i.extras <==> currentUser != ""
    ensures "current_user" in i.extras ==> i.extras["current_user"] == currentUser
    ensures "id" in i.extras <==> id != ""
    ensures "id" in i.extras ==> i.extras["id"] == id
  {
    SignerIntent(NostrsignerScheme + ":" + content, Some(packageName),
      map["type" := cryptType, "pubkey" := pubkey] + OptionalExtra("current_user", currentUser) + OptionalExtra("id", id))
  }

  /** The reply `onActivityResult` gives for the signer's answer extras. */
  function ActivityReply(resultCode: int, data: Option<map<string, string>>, requestId: Option<string>): (r: Reply)
    ensures resultCode != ResultOk ==> r == Error("USER_REJECTED", "User rejected the request")
    ensures resultCode == ResultOk && data.None? ==> r == Error("NO_DATA", "No data returned from signer")
    ensures resultCode == ResultOk && data.Some? ==>
              r.Ok? && r.value.Fields?
              && r.value.fields.Keys == {"result", "package", "event", "id"}
              && r.value.fields["result"] == Lookup(data.value, "result")
              && r.value.fields["package"] == Lookup(data.value, "package")
              && r.value.fields["event"] == Lookup(data.value, "event")
              && r.value.fields["id"] == (if "id" in data.value then Some(data.value["id"]) else requestId)
  {
    if resultCode != ResultOk then Error("USER_REJECTED", "User rejected the request")
    else match data
      case None => Error("NO_DATA", "No data returned from signer")
      case Some(extras) =>
        Ok(Fields(map[
          "result" := Lookup(extras, "result"),
          "package" := Lookup(extras, "package"),
          "event" := Lookup(extras, "event"),
          "id" := if "id" in extras then Some(extras["id"]) else requestId]))
  }

  function Lookup(extras: map<string, string>, key: string): Option<string> {
    if key in extras then Some(extras[key]) else None
  }

  // --- the plugin -----------------------------------------------------------

  class AmberSignerPlugin {
    /** `context != null`, `activity != null`. */
    var hasContext: bool
    var hasActivity: bool
    /** `signer_package_name` in the `amber_signer_prefs` shared preferences. */
    var storedPackage: Option<string>
    /** The single pending-request slot. */
    var pendingResult: Option<Handle>
    var currentRequestId: Option<string>
    /** Every reply sent, in order, and every intent launched. */
    var answers: seq<Answer>
    var launched: seq<SignerIntent>

    /** A request id is only ever held together with a pending result. */
    ghost predicate Valid()
      reads this
    {
      pendingResult.None? ==> currentRequestId.None?
    }

    constructor (hasContext: bool, hasActivity: bool, storedPackage: Option<string>)
      ensures Valid()
      ensures this.hasContext == hasContext && this.hasActivity == hasActivity && this.storedPackage == storedPackage
      ensures pendingResult.None? && answers == [] && launched == []
    {
      this.hasContext := hasContext;
      this.hasActivity := hasActivity;
      this.storedPackage := storedPackage;
      pendingResult := None;
      currentRequestId := None;
      answers := [];
      launched := [];
    }

    /** `getSignerPackageName`: the preferences are reached through the
        activity, so without one there is no package. */
    function SignerPackageName(): (p: Option<string>)
      reads this
      ensures hasActivity ==> p == storedPackage
      ensures !hasActivity ==> p.None?
    {
      if hasActivity then storedPackage else None
    }

    /** `isExternalSignerInstalled`. */
    function ExternalSignerInstalled(device: Device): (b: bool)
      reads this
      ensures b <==> hasActivity && device.signerInstalled
    {
      hasActivity && device.signerInstalled
    }

    // Each operation's effect, shared by the operation and by `OnMethodCall`.

    twostate predicate Answered(result: Handle, new reply: Reply)
      reads this
    {
      answers == old(answers) + [Answer(result, reply)]
    }

    twostate predicate SlotKept()
      reads this
    {
      pendingResult == old(pendingResult) && currentRequestId == old(currentRequestId)
    }

    twostate predicate EnvironmentKept()
      reads this
    {
      hasContext == old(hasContext) && hasActivity == old(hasActivity) && storedPackage == old(storedPackage)
    }

    /** Only `result` is answered, nothing is launched, the slot is kept. */
    twostate predicate RepliedOnly(result: Handle, new reply: Reply)
      reads this
    {
      Answered(result, reply) && SlotKept() && EnvironmentKept() && launched == old(launched)
    }

    twostate predicate LaunchedFrom(result: Handle, new intent: SignerIntent, requestId: Option<string>, new failure: Option<Reply>)
      reads this
    {
      EnvironmentKept() && launched == old(launched) + [intent]
      && match failure
         case None => pendingResult == Some(result) && currentRequestId == requestId && answers == old(answers)
         case Some(reply) => pendingResult.None? && currentRequestId.None? && Answered(result, reply)
    }

    twostate predicate GotPublicKey(permissions: Option<string>, result: Handle, launch: LaunchOutcome)
      reads this
    {
      if !old(hasActivity) then RepliedOnly(result, Error("NO_ACTIVITY", "Activity not available"))
      else LaunchedFrom(result, PublicKeyIntent(permissions), None,
        match launch
        case Started => None
        case ActivityNotFound(message) => Some(Error("NO_SIGNER", "No signer app found: " + message))
        case Failed(message) => Some(Error("LAUNCH_ERROR", "Failed to launch signer: " + message)))
    }

    twostate predicate SignedEvent(eventJson: string, id: string, currentUser: string, result: Handle, device: Device)
      reads this
    {
      var packageName := old(SignerPackageName());
      if packageName.None? || packageName.value == "" then
        RepliedOnly(result, Error("NO_SIGNER", "Signer package name not set. Call getPublicKey first."))
      else
        var hit := SignResolverHit(old(hasContext), device.resolver, eventJson, currentUser, packageName.value);
        if hit.Some? then
          RepliedOnly(result, Ok(Fields(map["result" := hit.value.signature, "event" := hit.value.event, "id" := Some(id)])))
        else
          LaunchedFrom(result, SignIntent(eventJson, packageName.value, id, currentUser), Some(id),
            if device.launch.Started? then None
            else Some(Error("LAUNCH_ERROR", "Failed to launch signer: " + device.launch.message)))
    }

    twostate predicate Crypted(cryptType: string, content: string, pubkey: string, currentUser: string, id: string,
                               result: Handle, device: Device)
      reads this
    {
      var packageName := old(SignerPackageName());
      if packageName.None? || packageName.value == "" then
        RepliedOnly(result, Error("NO_SIGNER", "Signer package name not set. Call getPublicKey first."))
      else
        var hit := CryptResolverHit(old(hasContext), device.resolver, cryptType, content, pubkey, currentUser, packageName.value);
        if hit.Some? then
          RepliedOnly(result, Ok(Fields(map["result" := hit, "id" := Some(id)])))
        else
          LaunchedFrom(result, CryptIntent(cryptType, content, pubkey, currentUser, id, packageName.value), Some(id),
            if device.launch.Started? then None
            else Some(Error("LAUNCH_ERROR", "Failed to launch signer: " + device.launch.message)))
    }

    /** `setSignerPackageName`: writes the preference through the activity,
        and does nothing without one. */
    method SetSignerPackageName(packageName: string)
      requires Valid()
      modifies this
      ensures Valid()
      ensures storedPackage == if old(hasActivity) then Some(packageName) else old(storedPackage)
      ensures hasContext == old(hasContext) && hasActivity == old(hasActivity)
      ensures SlotKept() && answers == old(answers) && launched == old(launched)
    {
      if hasActivity {
        storedPackage := Some(packageName);
      }
    }

    /** `getPublicKey`: needs an activity; takes the slot with no request id
        and launches; a launch that throws frees the slot again. */
    method GetPublicKey(permissions: Option<string>, result: Handle, launch: LaunchOutcome)
      requires Valid()
      modifies this
      ensures Valid() && GotPublicKey(permissions, result, launch)
    {
      if !hasActivity {
        answers := answers + [Answer(result, Error("NO_ACTIVITY", "Activity not available"))];
        return;
      }
      pendingResult := Some(result);
      currentRequestId := None;
      launched := launched + [PublicKeyIntent(permissions)];
      match launch {
        case Started =>
        case ActivityNotFound(message) =>
          pendingResult := None;
          answers := answers + [Answer(result, Error("NO_SIGNER", "No signer app found: " + message))];
        case Failed(message) =>
          pendingResult := None;
          answers := answers + [Answer(result, Error("LAUNCH_ERROR", "Failed to launch signer: " + message))];
      }
    }

    /** Takes the slot for `result` and `id`, launches `intent`, and frees the
        slot with `LAUNCH_ERROR` when the launch throws. */
    method Launch(intent: SignerIntent, id: string, result: Handle, launch: LaunchOutcome)
      requires Valid()
      modifies this
      ensures Valid()
      ensures LaunchedFrom(result, intent, Some(id),
                if launch.Started? then None else Some(Error("LAUNCH_ERROR", "Failed to launch signer: " + launch.message)))
    {
      pendingResult := Some(result);
      currentRequestId := Some(id);
      launched := launched + [intent];
      if !launch.Started? {
        pendingResult := None;
        currentRequestId := None;
        answers := answers + [Answer(result, Error("LAUNCH_ERROR", "Failed to launch signer: " + launch.message))];
      }
    }

    /** `signEvent`: needs a stored signer package; a content-resolver hit
        answers at once, otherwise the request goes out as an intent. The
        package is read through the activity, so the activity is there for
        the intent and `NO_ACTIVITY` is never the answer. */
    method SignEvent(eventJson: string, id: string, currentUser: string, result: Handle, device: Device)
      requires Valid()
      modifies this
      ensures Valid() && SignedEvent(eventJson, id, currentUser, result, device)
    {
      var packageName := SignerPackageName();
      if packageName.None? || packageName.value == "" {
        answers := answers + [Answer(result, Error("NO_SIGNER", "Signer package name not set. Call getPublicKey first."))];
        return;
      }
      var hit := SignResolverHit(hasContext, device.resolver, eventJson, currentUser, packageName.value);
      if hit.Some? {
        var response := map["result" := hit.value.signature, "event" := hit.value.event, "id" := Some(id)];
        answers := answers + [Answer(result, Ok(Fields(response)))];
        return;
      }
      assert hasActivity;
      Launch(SignIntent(eventJson, packageName.value, id, currentUser), id, result, device.launch);
    }

    /** `launchSignerIntent`, behind the four encrypt/decrypt methods: as
        `SignEvent`, with the crypto content-resolver path. */
    method LaunchSignerIntent(cryptType: string, content: string, pubkey: string, currentUser: string, id: string,
                              result: Handle, device: Device)
      requires Valid()
      modifies this
      ensures Valid() && Crypted(cryptType, content, pubkey, currentUser, id, result, device)
    {
      var packageName := SignerPackageName();
      if packageName.None? || packageName.value == "" {
        answers := answers + [Answer(result, Error("NO_SIGNER", "Signer package name not set. Call getPublicKey first."))];
        return;
      }
      var hit := CryptResolverHit(hasContext, device.resolver, cryptType, content, pubkey, currentUser, packageName.value);
      if hit.Some? {
        answers := answers + [Answer(result, Ok(Fields(map["result" := hit, "id" := Some(id)])))];
        return;
      }
      assert hasActivity;
      Launch(CryptIntent(cryptType, content, pubkey, currentUser, id, packageName.value), id, result, device.launch);
    }

    /** `onMethodCall`: validate, then hand the request to its operation. */
    method OnMethodCall(call: MethodCall, result: Handle, device: Device)
      requires Valid()
      modifies this
      ensures Valid()
      ensures match ParseCall(call)
        case IsExternalSignerInstalled => RepliedOnly(result, Ok(Bool(old(ExternalSignerInstalled(device)))))
        case GetPublicKey(permissions) => GotPublicKey(permissions, result, device.launch)
        case SignEvent(eventJson, id, currentUser) => SignedEvent(eventJson, id, currentUser, result, device)
        case Crypt(cryptType, content, pubkey, currentUser, id) =>
          Crypted(cryptType, content, pubkey, currentUser, id, result, device)
        case GetSignerPackageName =>
          RepliedOnly(result, Ok(match old(SignerPackageName()) case Some(p) => Str(p) case None => Null))
        case SetSignerPackageName(packageName) =>
          Answered(result, Ok(Null)) && SlotKept() && launched == old(launched)
          && hasContext == old(hasContext) && hasActivity == old(hasActivity)
          && storedPackage == if old(hasActivity) then Some(packageName) else old(storedPackage)
        case MissingArgument(name) => RepliedOnly(result, Error("INVALID_ARGUMENT", name + " is required"))
        case Unknown => RepliedOnly(result, NotImplemented)
    {
      match ParseCall(call) {
        case IsExternalSignerInstalled =>
          answers := answers + [Answer(result, Ok(Bool(ExternalSignerInstalled(device))))];
        case GetPublicKey(permissions) =>
          GetPublicKey(permissions, result, device.launch);
        case SignEvent(eventJson, id, currentUser) =>
          SignEvent(eventJson, id, currentUser, result, device);
        case Crypt(cryptType, content, pubkey, currentUser, id) =>
          LaunchSignerIntent(cryptType, content, pubkey, currentUser, id, result, device);
        case GetSignerPackageName =>
          var p := SignerPackageName();
          answers := answers + [Answer(result, Ok(match p case Some(s) => Str(s) case None => Null))];
        case SetSignerPackageName(packageName) =>
          SetSignerPackageName(packageName);
          answers := answers + [Answer(result, Ok(Null))];
        case MissingArgument(name) =>
          answers := answers + [Answer(result, Error("INVALID_ARGUMENT", name + " is required"))];
        case Unknown =>
          answers := answers + [Answer(result, NotImplemented)];
      }
    }

    /** `onActivityResult`: ignores other request codes; otherwise reads and
        clears the slot and answers the pending request, if any, saving a
        non-empty returned package name. */
    method OnActivityResult(requestCode: int, resultCode: int, data: Option<map<string, string>>) returns (handled: bool)
      requires Valid()
      modifies this
      ensures Valid()
      ensures handled <==> requestCode == RequestCodeSigner
      ensures !handled ==> SlotKept() && EnvironmentKept() && answers == old(answers) && launched == old(launched)
      ensures handled ==> pendingResult.None? && currentRequestId.None?
      ensures hasContext == old(hasContext) && hasActivity == old(hasActivity) && launched == old(launched)
      ensures handled && old(pendingResult).None? ==> answers == old(answers) && storedPackage == old(storedPackage)
      ensures handled && old(pendingResult).Some? ==>
                answers == old(answers) + [Answer(old(pendingResult).value, ActivityReply(resultCode, data, old(currentRequestId)))]
      ensures storedPackage ==
                if handled && old(pendingResult).Some? && resultCode == ResultOk && data.Some?
                   && Lookup(data.value, "package").Some? && data.value["package"] != "" && old(hasActivity)
                then Some(data.value["package"])
                else old(storedPackage)
    {
      if requestCode != RequestCodeSigner {
        return false;
      }
      if pendingResult.None? {
        return true;
      }
      var result := pendingResult.value;
      pendingResult := None;
      var requestId := currentRequestId;
      currentRequestId := None;
      if resultCode == ResultOk && data.Some? {
        var packageName := Lookup(data.value, "package");
        if packageName.Some? && packageName.value != "" {
          SetSignerPackageName(packageName.value);
        }
      }
      answers := answers + [Answer(result, ActivityReply(resultCode, data, requestId))];
      return true;
    }
  }

  /** A sign request that the content resolver does not answer goes out as
      an intent and waits in the slot; the signer's answer, which carries no
      id, is delivered to that request under the id it was sent with, and a
      second, stray result finds the slot empty and answers nothing. */
  method SignThroughIntent() returns (answers: seq<Answer>, pendingAfter: Option<Handle>)
    ensures answers == [Answer(7, Ok(Fields(map["result" := Some("sig"), "package" := None, "event" := None, "id" := Some("req-1")])))]
    ensures pendingAfter.None?
  {
    var plugin := new AmberSignerPlugin(true, true, Some("com.greenart7c3.nostrsigner"));
    var device := Device(true, (q: ResolverQuery) => Unavailable, Started);
    var call := MethodCall("signEvent", map["eventJson" := "{}", "id" := "req-1"]);
    plugin.OnMethodCall(call, 7, device);
    assert plugin.pendingResult == Some(7) && plugin.answers == [];
    var handled := plugin.OnActivityResult(RequestCodeSigner, ResultOk, Some(map["result" := "sig"]));
    var strayHandled := plugin.OnActivityResult(RequestCodeSigner, ResultOk, Some(map["result" := "late"]));
    answers := plugin.answers;
    pendingAfter := plugin.pendingResult;
  }

  /** Signing with no stored package answers `NO_SIGNER` and leaves the slot
      free, and a result with a foreign request code is not handled. */
  method SignWithoutPackage() returns (answers: seq<Answer>, handled: bool)
    ensures answers == [Answer(1, Error("NO_SIGNER", "Signer package name not set. Call getPublicKey first."))]
    ensures !handled
  {
    var plugin := new AmberSignerPlugin(true, true, None);
    var device := Device(true, (q: ResolverQuery) => Unavailable, Started);
    plugin.OnMethodCall(MethodCall("nip44Encrypt", map["plaintext" := "hi", "pubkey" := "ab"]), 1, device);
    handled := plugin.OnActivityResult(42, ResultOk, None);
    answers := plugin.answers;
  }
}
