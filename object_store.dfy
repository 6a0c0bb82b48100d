/**
 * The object-store façade over one bucket. Each operation first rejects a
 * blank key (and, for writes, missing content) without contacting the
 * provider; otherwise it issues exactly one provider call, and any provider
 * failure comes back as a storage exception whose message names the
 * operation and the key.
 *
 * The provider is abstracted as: the bucket's objects, the log of calls it
 * received, the set of calls that fail, and the function that signs URLs.
 */
module ObjectStorage {

  import opened JavaLang
  import opened JavaText
  import opened ErrorCodes
  import opened ServiceExceptions

  const EMPTY_KEY_MESSAGE := "Пустой ключ объекта"
  const EMPTY_CONTENT_MESSAGE := "Пустое содержимое файла"
  const SAVE_ERROR_PREFIX := "Не удалось сохранить файл в хранилище: "
  const DELETE_ERROR_PREFIX := "Не удалось удалить файл из хранилища: "
  const PRESIGN_ERROR_PREFIX := "Не удалось сгенерировать ссылку для файла: "

  /** A request the façade sends to the storage provider. */
  datatype ClientCall =
    | PutObject(bucket: string, key: string, content: Bytes)
    | DeleteObject(bucket: string, key: string)
    | PresignGetObject(bucket: string, key: string, signatureDuration: nat)

  /** The fixed part of the provider: the configured bucket, the URL lifetime and the calls that fail. */
  datatype Provider = Provider(bucket: string, urlExpiration: nat, faults: set<ClientCall>)

  /** What the provider holds: the objects of the bucket and the calls received so far. */
  datatype BucketState = BucketState(objects: map<string, Bytes>, calls: seq<ClientCall>)

  /** The state after a write or delete, with what the operation reported. */
  datatype Step = Step(state: BucketState, outcome: Outcome<ServiceException>)

  /** The state after a presign request, with the URL or the failure. */
  datatype PresignStep = PresignStep(state: BucketState, url: Result<string, ServiceException>)

  predicate UsableKey(key: Option<string>) {
    key.Some? && !IsBlank(key.value)
  }

  predicate UsableContent(content: Option<Bytes>) {
    content.Some? && |content.value| > 0
  }

  /** The three operations, each with the prefix its provider failures carry. */
  datatype Operation = Save | Delete | Sign {
    function ErrorPrefix(): (r: string)
      ensures |r| > 0 && !IsWhitespace(r[0])
    {
      match this
      case Save => SAVE_ERROR_PREFIX
      case Delete => DELETE_ERROR_PREFIX
      case Sign => PRESIGN_ERROR_PREFIX
    }
  }

  /** The exception for a request rejected before any provider call. */
  function Rejection(message: string): (e: ServiceException)
    requires message == EMPTY_KEY_MESSAGE || message == EMPTY_CONTENT_MESSAGE
    ensures e.errorCode == FileStorageError && e.message == message && e.cause == NoCause
  {
    assert !IsWhitespace(message[0]);
    Raise(FileStorageError, message, NoCause)
  }

  /** The exception a provider failure becomes: the operation's prefix followed by the key, with the cause kept. */
  function ProviderFailure(op: Operation, key: string): (e: ServiceException)
    ensures e.errorCode == FileStorageError && e.cause == StorageProviderFailure
    ensures e.message == op.ErrorPrefix() + key
  {
    assert (op.ErrorPrefix() + key)[0] == op.ErrorPrefix()[0];
    Raise(FileStorageError, op.ErrorPrefix() + key, StorageProviderFailure)
  }

  /** `storeObject`: the key check, then the content check, then one `putObject` that overwrites the key. */
  function Store(p: Provider, s: BucketState, key: Option<string>, content: Option<Bytes>): (r: Step)
    ensures !UsableKey(key) ==> r == Step(s, Fail(Rejection(EMPTY_KEY_MESSAGE)))
    ensures UsableKey(key) && !UsableContent(content) ==> r == Step(s, Fail(Rejection(EMPTY_CONTENT_MESSAGE)))
    ensures UsableKey(key) && UsableContent(content) ==>
              var call := PutObject(p.bucket, key.value, content.value);
              && r.state.calls == s.calls + [call]
              && (call in p.faults ==>
                    r.state.objects == s.objects && r.outcome == Fail(ProviderFailure(Save, key.value)))
              && (call !in p.faults ==> r.state.objects == s.objects[key.value := content.value] && r.outcome == Pass)
  {
    if !UsableKey(key) then Step(s, Fail(Rejection(EMPTY_KEY_MESSAGE)))
    else if !UsableContent(content) then Step(s, Fail(Rejection(EMPTY_CONTENT_MESSAGE)))
    else
      var call := PutObject(p.bucket, key.value, content.value);
      var logged := s.calls + [call];
      if call in p.faults then
        Step(BucketState(s.objects, logged), Fail(ProviderFailure(Save, key.value)))
      else Step(BucketState(s.objects[key.value := content.value], logged), Pass)
  }

  /** `removeObject`: the key check, then one `deleteObject`; deleting an absent key changes nothing. */
  function Remove(p: Provider, s: BucketState, key: Option<string>): (r: Step)
    ensures !UsableKey(key) ==> r == Step(s, Fail(Rejection(EMPTY_KEY_MESSAGE)))
    ensures UsableKey(key) ==>
              var call := DeleteObject(p.bucket, key.value);
              && r.state.calls == s.calls + [call]
              && (call in p.faults ==>
                    r.state.objects == s.objects && r.outcome == Fail(ProviderFailure(Delete, key.value)))
              && (call !in p.faults ==> r.state.objects == s.objects - {key.value} && r.outcome == Pass)
  {
    if !UsableKey(key) then Step(s, Fail(Rejection(EMPTY_KEY_MESSAGE)))
    else
      var call := DeleteObject(p.bucket, key.value);
      var logged := s.calls + [call];
      if call in p.faults then
        Step(BucketState(s.objects, logged), Fail(ProviderFailure(Delete, key.value)))
      else Step(BucketState(s.objects - {key.value}, logged), Pass)
  }

  /**
   * `generatePresignedUrl`: the key check, then one presign request for the
   * configured bucket and lifetime; the objects are never touched.
   */
  function Presign(p: Provider, presigner: ClientCall -> string, s: BucketState, key: Option<string>): (r: PresignStep)
    ensures r.state.objects == s.objects
    ensures !UsableKey(key) ==> r == PresignStep(s, Failure(Rejection(EMPTY_KEY_MESSAGE)))
    ensures UsableKey(key) ==>
              var call := PresignGetObject(p.bucket, key.value, p.urlExpiration);
              && r.state.calls == s.calls + [call]
              && (call in p.faults ==> r.url == Failure(ProviderFailure(Sign, key.value)))
              && (call !in p.faults ==> r.url == Success(presigner(call)))
  {
    if !UsableKey(key) then PresignStep(s, Failure(Rejection(EMPTY_KEY_MESSAGE)))
    else
      var call := PresignGetObject(p.bucket, key.value, p.urlExpiration);
      var logged := BucketState(s.objects, s.calls + [call]);
      if call in p.faults then
        PresignStep(logged, Failure(ProviderFailure(Sign, key.value)))
      else PresignStep(logged, Success(presigner(call)))
  }

  /** Writing a key twice leaves the second payload (the provider overwrites). */
  lemma {:induction false} StoreOverwrites(p: Provider, s: BucketState, key: string, first: Bytes, second: Bytes)
    requires !IsBlank(key) && |first| > 0 && |second| > 0
    requires PutObject(p.bucket, key, first) !in p.faults && PutObject(p.bucket, key, second) !in p.faults
    ensures Store(p, Store(p, s, Some(key), Some(first)).state, Some(key), Some(second)).state.objects
            == s.objects[key := second]
  {
    var s1 := Store(p, s, Some(key), Some(first)).state;
    assert s1.objects == s.objects[key := first];
  }

  /** Deleting is idempotent: a second delete of the same key leaves the objects as the first did. */
  lemma {:induction false} RemoveIdempotent(p: Provider, s: BucketState, key: Option<string>)
    requires UsableKey(key) ==> DeleteObject(p.bucket, key.value) !in p.faults
    ensures Remove(p, Remove(p, s, key).state, key).state.objects == Remove(p, s, key).state.objects
  {
  }

  /** A write followed by a delete of the same key leaves no object there, and every other key as before. */
  lemma {:induction false} RemoveAfterStore(p: Provider, s: BucketState, key: string, content: Bytes)
    requires !IsBlank(key) && |content| > 0
    requires DeleteObject(p.bucket, key) !in p.faults
    ensures Remove(p, Store(p, s, Some(key), Some(content)).state, Some(key)).state.objects == s.objects - {key}
  {
  }

  /** A rejected request never reaches the provider, whichever check rejects it. */
  lemma {:induction false} RejectedRequestsSendNothing(p: Provider, presigner: ClientCall -> string, s: BucketState,
                                                      key: Option<string>, content: Option<Bytes>)
    ensures Store(p, s, key, content).outcome.Fail? && |Store(p, s, key, content).state.calls| == |s.calls|
            ==> Store(p, s, key, content).state == s
    ensures Store(p, s, key, content).state.calls == s.calls <==> !UsableKey(key) || !UsableContent(content)
    ensures Remove(p, s, key).state.calls == s.calls <==> !UsableKey(key)
    ensures Presign(p, presigner, s, key).state.calls == s.calls <==> !UsableKey(key)
  {
  }

  /** The façade object: its bucket contents and call log change through the three operations. */
  class S3Service {
    const provider: Provider
    const presigner: ClientCall -> string
    var objects: map<string, Bytes>
    var calls: seq<ClientCall>

    function State(): BucketState
      reads this
    {
      BucketState(objects, calls)
    }

    constructor (provider: Provider, presigner: ClientCall -> string, objects: map<string, Bytes>)
      ensures this.provider == provider && this.presigner == presigner
      ensures State() == BucketState(objects, [])
    {
      this.provider := provider;
      this.presigner := presigner;
      this.objects := objects;
      this.calls := [];
    }

    method StoreObject(key: Option<string>, content: Option<Bytes>) returns (r: Outcome<ServiceException>)
      modifies this
      ensures Step(State(), r) == Store(provider, old(State()), key, content)
    {
      var step := Store(provider, State(), key, content);
      objects, calls, r := step.state.objects, step.state.calls, step.outcome;
    }

    method RemoveObject(key: Option<string>) returns (r: Outcome<ServiceException>)
      modifies this
      ensures Step(State(), r) == Remove(provider, old(State()), key)
    {
      var step := Remove(provider, State(), key);
      objects, calls, r := step.state.objects, step.state.calls, step.outcome;
    }

    method GeneratePresignedUrl(key: Option<string>) returns (r: Result<string, ServiceException>)
      modifies this
      ensures PresignStep(State(), r) == Presign(provider, presigner, old(State()), key)
      ensures objects == old(objects)
    {
      var step := Presign(provider, presigner, State(), key);
      calls, r := step.state.calls, step.url;
    }
  }
}
