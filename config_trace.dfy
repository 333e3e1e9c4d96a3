/**
  The lifecycle of the configuration store over any sequence of calls:
  each `load` either fails and changes nothing or replaces the held
  document wholesale, and every accessor reply is determined by the last
  successful load before it (or by the initial None when there is none).
*/
module ConfigTrace {
  import opened Results
  import opened PyJson
  import opened Config

  /** One call of the module's public surface. */
  datatype Call = LoadCall(file: FileRead) | HostCall | PortCall | CountCall

  /** What that call returned or raised. */
  datatype Reply =
    | Loaded(outcome: Outcome<LoadError>)
    | Host(host: Result<Json, AccessError>)
    | Port(port: Result<Json, AccessError>)
    | Count(count: Result<nat, AccessError>)

  /** Replies as the accessor a call names would give them against `config`. */
  function Read(config: Json, call: Call): Reply
    requires !call.LoadCall?
  {
    match call
    case HostCall => Host(ApiHost(config))
    case PortCall => Port(ApiPort(config))
    case CountCall => Count(ChambersCount(config))
  }

  /** One call against the held value: the new held value and the reply. */
  function Exec(config: Json, call: Call, decode: string -> Decoded): (Json, Reply) {
    if call.LoadCall? then
      var s := LoadStep(config, call.file, decode);
      (s.config, Loaded(s.outcome))
    else
      (config, Read(config, call))
  }

  /** A run of calls from `config`: the final held value and one reply per call. */
  function Run(config: Json, calls: seq<Call>, decode: string -> Decoded): (r: (Json, seq<Reply>))
    ensures |r.1| == |calls|
    decreases |calls|
  {
    if calls == [] then (config, [])
    else
      var (next, reply) := Exec(config, calls[0], decode);
      var (last, replies) := Run(next, calls[1..], decode);
      (last, [reply] + replies)
  }

  /** True of a call that replaces the held value: a load whose read and decode both succeed. */
  predicate Replaces(call: Call, decode: string -> Decoded) {
    call.LoadCall? && call.file.Content? && decode(call.file.text).Parsed?
  }

  /** The document of the last replacing call in `calls`, or `init` when there is none. */
  function Current(init: Json, calls: seq<Call>, decode: string -> Decoded): Json
    decreases |calls|
  {
    if calls == [] then init
    else
      var call := calls[|calls| - 1];
      if Replaces(call, decode) then decode(call.file.text).value
      else Current(init, calls[..|calls| - 1], decode)
  }

  /** Running `a` then `b` is running `a + b`. */
  lemma {:induction false} RunConcat(init: Json, a: seq<Call>, b: seq<Call>, decode: string -> Decoded)
    ensures Run(init, a + b, decode).0 == Run(Run(init, a, decode).0, b, decode).0
    ensures Run(init, a + b, decode).1 == Run(init, a, decode).1 + Run(Run(init, a, decode).0, b, decode).1
    decreases |a|
  {
    if a == [] {
      assert a + b == b;
    } else {
      var next := Exec(init, a[0], decode).0;
      assert (a + b)[0] == a[0];
      assert (a + b)[1..] == a[1..] + b;
      RunConcat(next, a[1..], b, decode);
    }
  }

  /** The held value after any run is the document of its last successful load. */
  lemma {:induction false} RunHoldsLastLoad(init: Json, calls: seq<Call>, decode: string -> Decoded)
    ensures Run(init, calls, decode).0 == Current(init, calls, decode)
  {
    if calls != [] {
      var prefix, call := calls[..|calls| - 1], calls[|calls| - 1];
      assert calls == prefix + [call];
      RunConcat(init, prefix, [call], decode);
      RunHoldsLastLoad(init, prefix, decode);
    }
  }

  /**
    The reply to the i-th call is that call executed against the document
    of the last successful load before it: a failed load changes nothing,
    a successful one is a full replace, an accessor only reads.
  */
  lemma {:induction false} ReplyAt(init: Json, calls: seq<Call>, decode: string -> Decoded, i: nat)
    requires i < |calls|
    ensures Run(init, calls, decode).1[i] == Exec(Current(init, calls[..i], decode), calls[i], decode).1
  {
    assert calls == calls[..i] + calls[i..];
    RunConcat(init, calls[..i], calls[i..], decode);
    RunHoldsLastLoad(init, calls[..i], decode);
  }

  /** Without a successful load the held value stays what it was. */
  lemma {:induction false} NoReplaceKeepsCurrent(init: Json, calls: seq<Call>, decode: string -> Decoded)
    requires forall j :: 0 <= j < |calls| ==> !Replaces(calls[j], decode)
    ensures Current(init, calls, decode) == init
  {
    if calls != [] {
      NoReplaceKeepsCurrent(init, calls[..|calls| - 1], decode);
    }
  }

  /** Appending calls that do not replace the document does not change it. */
  lemma {:induction false} NoReplaceExtendsCurrent(init: Json, calls: seq<Call>, k: nat, decode: string -> Decoded)
    requires k <= |calls|
    requires forall j :: k <= j < |calls| ==> !Replaces(calls[j], decode)
    ensures Current(init, calls, decode) == Current(init, calls[..k], decode)
  {
    if k < |calls| {
      assert calls[..|calls| - 1][..k] == calls[..k];
      NoReplaceExtendsCurrent(init, calls[..|calls| - 1], k, decode);
    } else {
      assert calls[..k] == calls;
    }
  }

  /**
    Before any successful load, from the initial None, every accessor
    raises ConfigNotLoaded and returns no value.
  */
  lemma NotLoadedBeforeLoad(calls: seq<Call>, decode: string -> Decoded, i: nat)
    requires i < |calls| && !calls[i].LoadCall?
    requires forall j :: 0 <= j < i ==> !Replaces(calls[j], decode)
    ensures Run(JNull, calls, decode).1[i] in
              {Host(Err(ConfigNotLoaded)), Port(Err(ConfigNotLoaded)), Count(Err(ConfigNotLoaded))}
  {
    ReplyAt(JNull, calls, decode, i);
    NoReplaceKeepsCurrent(JNull, calls[..i], decode);
  }

  /**
    Full replace, no merge: after a successful load of D at position k and
    no successful load since, every accessor reflects D only, whatever was
    loaded before.
  */
  lemma LastLoadWins(init: Json, calls: seq<Call>, decode: string -> Decoded, k: nat, i: nat)
    requires k < i < |calls| && !calls[i].LoadCall?
    requires Replaces(calls[k], decode)
    requires forall j :: k < j < i ==> !Replaces(calls[j], decode)
    ensures Run(init, calls, decode).1[i] == Read(decode(calls[k].file.text).value, calls[i])
  {
    ReplyAt(init, calls, decode, i);
    NoReplaceExtendsCurrent(init, calls[..i], k + 1, decode);
    assert calls[..i][..k + 1] == calls[..k + 1];
    assert calls[..k + 1][k] == calls[k];
  }

  /** A failed load leaves a previously loaded document queryable unchanged. */
  lemma FailedLoadKeepsDocument(init: Json, calls: seq<Call>, decode: string -> Decoded, i: nat)
    requires 0 < i < |calls| && !calls[i].LoadCall?
    requires calls[i - 1].LoadCall? && !Replaces(calls[i - 1], decode)
    ensures Run(init, calls, decode).1[i - 1].Loaded? && Run(init, calls, decode).1[i - 1].outcome.Fail?
    ensures Run(init, calls, decode).1[i] == Read(Current(init, calls[..i - 1], decode), calls[i])
  {
    ReplyAt(init, calls, decode, i - 1);
    ReplyAt(init, calls, decode, i);
    assert calls[..i][..i - 1] == calls[..i - 1];
  }

  /** Accessors never modify the store: the same accessor called twice with
      no successful load in between gives the same reply. */
  lemma RepeatedReadsAgree(init: Json, calls: seq<Call>, decode: string -> Decoded, i: nat, j: nat)
    requires i < j < |calls| && calls[i] == calls[j] && !calls[i].LoadCall?
    requires forall m :: i <= m < j ==> !Replaces(calls[m], decode)
    ensures Run(init, calls, decode).1[i] == Run(init, calls, decode).1[j]
  {
    ReplyAt(init, calls, decode, i);
    ReplyAt(init, calls, decode, j);
    NoReplaceExtendsCurrent(init, calls[..j], i, decode);
    assert calls[..j][..i] == calls[..i];
  }
}
