/** rust/src/api/signer.rs: `DartSigner`, a `NostrSigner` whose every
    operation is a call into one of five caller-supplied callbacks, and the
    external-signer login sequence. Each operation returns its result
    together with the log of the callback calls it made. */
module Signer {
  import opened Wrappers
  import opened Errors
  import W = Whitenoise

  /** An event before signing, and a signed event (id and signature added). */
  datatype UnsignedEvent = UnsignedEvent(pubkey: W.PublicKey, createdAt: W.Timestamp, kind: W.U16, tags: seq<seq<string>>, content: string)
  datatype Event = Event(id: W.EventId, pubkey: W.PublicKey, createdAt: W.Timestamp, kind: W.U16, tags: seq<seq<string>>, content: string, sig: string)

  /** serde_json, whose code is not part of this model: serialising an
      unsigned event and parsing a signed one, each of which may fail. */
  datatype Json = Json(serialize: UnsignedEvent -> Result<string, string>, parseEvent: string -> Result<Event, string>)

  /** The five Dart callbacks. The encrypt/decrypt ones take
      `(content, counterparty public key as hex)`. */
  datatype Callbacks = Callbacks(
    signEvent: string -> string,
    nip04Encrypt: (string, string) -> string,
    nip04Decrypt: (string, string) -> string,
    nip44Encrypt: (string, string) -> string,
    nip44Decrypt: (string, string) -> string)

  datatype DartSigner = DartSigner(pubkey: W.PublicKey, callbacks: Callbacks)

  datatype CryptOp = Nip04Encrypt | Nip04Decrypt | Nip44Encrypt | Nip44Decrypt

  /** One call of a callback, with its arguments in the order passed. */
  datatype CallbackCall =
    | SignEventCall(unsignedJson: string)
    | CryptCall(op: CryptOp, content: string, pubkeyHex: string)

  /** `SignerError::backend`, carrying the serde error. */
  datatype SignerError = Backend(reason: string)

  /** What `{:?}` prints: the struct name and its listed fields. */
  datatype DebugStruct = DebugStruct(name: string, fields: seq<(string, W.PublicKey)>)

  /** `DartSigner::new`. */
  function New(pubkey: W.PublicKey, callbacks: Callbacks): (s: DartSigner)
    ensures s.pubkey == pubkey && s.callbacks == callbacks
  {
    DartSigner(pubkey, callbacks)
  }

  /** `impl Debug for DartSigner`: only the public key is shown. */
  function Debug(signer: DartSigner): (d: DebugStruct)
    ensures d.name == "DartSigner" && |d.fields| == 1 && d.fields[0] == ("pubkey", signer.pubkey)
  {
    DebugStruct("DartSigner", [("pubkey", signer.pubkey)])
  }

  /** The callbacks never show: two signers with the same key print alike. */
  lemma DebugHidesCallbacks(a: DartSigner, b: DartSigner)
    requires a.pubkey == b.pubkey
    ensures Debug(a) == Debug(b)
  {
  }

  /** `get_public_key`: the key, never an error, no callback. */
  function GetPublicKey(signer: DartSigner): (r: (Result<W.PublicKey, SignerError>, seq<CallbackCall>))
    ensures r.0.Success? && r.1 == []
  {
    (Success(signer.pubkey), [])
  }

  /** The key reported is the one `new` was given, whatever the callbacks. */
  lemma GetPublicKeyOfNew(pubkey: W.PublicKey, callbacks: Callbacks)
    ensures GetPublicKey(New(pubkey, callbacks)) == (Success(pubkey), [])
  {
  }

  /** `sign_event`: serialise, call the sign callback once with the JSON,
      parse its answer. Fails with `Backend` exactly when serialising or
      parsing fails; when serialising fails no callback is called. */
  function SignEvent(signer: DartSigner, json: Json, unsigned: UnsignedEvent): (r: (Result<Event, SignerError>, seq<CallbackCall>))
    ensures json.serialize(unsigned).Failure? ==>
              r == (Failure(Backend(json.serialize(unsigned).error)), [])
    ensures json.serialize(unsigned).Success? ==>
              var request := json.serialize(unsigned).value;
              var answer := json.parseEvent(signer.callbacks.signEvent(request));
              r.1 == [SignEventCall(request)]
              && (r.0.Success? <==> answer.Success?)
              && (answer.Success? ==> r.0.value == answer.value)
              && (answer.Failure? ==> r.0.error == Backend(answer.error))
  {
    match json.serialize(unsigned)
    case Failure(e) => (Failure(Backend(e)), [])
    case Success(request) =>
      var signed := signer.callbacks.signEvent(request);
      match json.parseEvent(signed)
      case Failure(e) => (Failure(Backend(e)), [SignEventCall(request)])
      case Success(event) => (Success(event), [SignEventCall(request)])
  }

  function Callback(callbacks: Callbacks, op: CryptOp): (string, string) -> string {
    match op
    case Nip04Encrypt => callbacks.nip04Encrypt
    case Nip04Decrypt => callbacks.nip04Decrypt
    case Nip44Encrypt => callbacks.nip44Encrypt
    case Nip44Decrypt => callbacks.nip44Decrypt
  }

  /** `nip04_encrypt`, `nip04_decrypt`, `nip44_encrypt`, `nip44_decrypt`:
      call the operation's callback once with the content and the
      counterparty key in hex, in that order, and return its string. */
  function Crypt(signer: DartSigner, op: CryptOp, publicKey: W.PublicKey, content: string)
    : (r: (Result<string, SignerError>, seq<CallbackCall>))
    ensures r.0.Success? && |r.1| == 1
    ensures r.1[0].CryptCall? && r.1[0].op == op
    ensures r.1[0].content == content && r.1[0].pubkeyHex == publicKey.ToHex()
  {
    var pubkeyHex := publicKey.ToHex();
    (Success(Callback(signer.callbacks, op)(content, pubkeyHex)), [CryptCall(op, content, pubkeyHex)])
  }

  /** Each crypto operation depends on its own callback only: replacing
      every other callback, or the sign callback, changes nothing. */
  lemma CryptUsesOnlyItsCallback(signer: DartSigner, other: Callbacks, op: CryptOp, publicKey: W.PublicKey, content: string)
    requires Callback(other, op) == Callback(signer.callbacks, op)
    ensures Crypt(signer.(callbacks := other), op, publicKey, content) == Crypt(signer, op, publicKey, content)
  {
  }

  /** The answer is the callback's string, verbatim. */
  lemma CryptIsVerbatim(signer: DartSigner, op: CryptOp, publicKey: W.PublicKey, content: string)
    ensures Crypt(signer, op, publicKey, content).0 == Success(Callback(signer.callbacks, op)(content, publicKey.ToHex()))
  {
  }

  /** Likewise, signing depends on the sign callback only. */
  lemma SignUsesOnlyItsCallback(signer: DartSigner, other: Callbacks, json: Json, unsigned: UnsignedEvent)
    requires other.signEvent == signer.callbacks.signEvent
    ensures SignEvent(signer.(callbacks := other), json, unsigned) == SignEvent(signer, json, unsigned)
  {
  }

  // --- login ----------------------------------------------------------------

  /** The library calls the login makes, in order. */
  datatype LoginStep =
    | Login(pubkey: W.PublicKey)
    | Register(pubkey: W.PublicKey, signer: DartSigner)
    | Publish(account: W.Account, signer: DartSigner)

  /** `login_with_external_signer_and_callbacks`: instance, key parse, then
      login, register, publish; the first error ends the sequence.
      `publish` is the library's `publish_key_package_for_account_with_signer`,
      whose outcome depends on the signer it is handed: it signs the key
      package through that signer's sign callback. */
  function LoginWithExternalSigner(instance: Option<W.Whitenoise>, publish: (W.Account, DartSigner) -> Result<(), string>,
                                   pubkey: string, callbacks: Callbacks)
    : (r: (Result<W.Account, ApiError>, seq<LoginStep>))
    ensures instance.None? ==> r == (Failure(NotInitialized), [])
    ensures instance.Some? && instance.value.parsePublicKey(pubkey).None? ==>
              r == (Failure(InvalidPublicKey(pubkey)), [])
    ensures instance.Some? && instance.value.parsePublicKey(pubkey).Some? ==>
              var whitenoise := instance.value;
              var pk := whitenoise.parsePublicKey(pubkey).value;
              var signer := New(pk, callbacks);
              match whitenoise.loginWithExternalSigner(pk)
              case Failure(e) => r == (Failure(Whitenoise(e)), [Login(pk)])
              case Success(account) =>
                r.1 == [Login(pk), Register(pk, signer), Publish(account, signer)]
                && (r.0.Success? <==> publish(account, signer).Success?)
                && (r.0.Success? ==> r.0.value == account)
                && match publish(account, signer)
                   case Failure(e) => r.0 == Failure(Whitenoise(e))
                   case Success(_) => r.0 == Success(account)
  {
    if instance.None? then (Failure(NotInitialized), [])
    else
      var whitenoise := instance.value;
      match whitenoise.parsePublicKey(pubkey)
      case None => (Failure(InvalidPublicKey(pubkey)), [])
      case Some(pk) =>
        var signer := New(pk, callbacks);
        match whitenoise.loginWithExternalSigner(pk)
        case Failure(e) => (Failure(Whitenoise(e)), [Login(pk)])
        case Success(account) =>
          var steps := [Login(pk), Register(pk, signer), Publish(account, signer)];
          match publish(account, signer)
          case Failure(e) => (Failure(Whitenoise(e)), steps)
          case Success(_) => (Success(account), steps)
  }

  /** Whatever happens, the steps taken are a prefix of login, register,
      publish, all with the parsed key and one signer built from the
      caller's callbacks; a successful login took all three. */
  lemma LoginOrder(instance: Option<W.Whitenoise>, publish: (W.Account, DartSigner) -> Result<(), string>,
                   pubkey: string, callbacks: Callbacks)
    ensures var r := LoginWithExternalSigner(instance, publish, pubkey, callbacks);
            r.1 != [] ==>
              var pk := r.1[0].pubkey;
              instance.Some? && instance.value.parsePublicKey(pubkey) == Some(pk)
              && r.1[0] == Login(pk)
              && (|r.1| == 1 || (|r.1| == 3 && r.1[1] == Register(pk, New(pk, callbacks))
                                 && r.1[2].Publish? && r.1[2].signer == New(pk, callbacks)))
    ensures var r := LoginWithExternalSigner(instance, publish, pubkey, callbacks);
            r.0.Success? ==> |r.1| == 3 && r.1[2].account == r.0.value
  {
  }
}
