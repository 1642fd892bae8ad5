/** The Thrift code generated for the wordfilter's single method
    (app/account/service/server/include/buzzblog/gen/TWordfilterService.cpp):
    the args and result structs' readers and writers, the client's send and
    receive, and the processor's dispatch. The binary protocol is abstracted
    to a stream of tokens: a message header, a field (its id and its value,
    whose wire type the value determines) or the stop marker. A protocol
    object holds the tokens still to be read and the tokens written. */
module Thrift {
  import Common
  import Types
  import Wordfilter

  datatype MessageType = Call | Reply | Exception | Oneway

  /** A field's value. `OtherV` stands for a value of any wire type the
      wordfilter's structs never read (i16, i64, double, containers, …), and
      `StructV` for a `TRequestMetadata`, whose own codec is not modelled. */
  datatype Value = BoolV(b: bool) | I32V(i: int) | StringV(s: string) | StructV(meta: Types.RequestMetadata) | OtherV

  datatype Token = MessageBegin(name: string, mtype: MessageType, seqid: int) | FieldBegin(id: int, value: Value) | FieldStop

  /** `TApplicationException` with its type and message; the transport's
      end-of-file; and a protocol exception for a token out of place. */
  datatype ThriftError = ApplicationError(kind: int, message: string) | EndOfInput | Malformed

  datatype Result<+T> = Success(value: T) | Failure(error: ThriftError)

  /** What a struct reader leaves: the struct as far as it was filled in,
      the error that stopped it if any, and the position after the tokens
      it consumed. */
  datatype Parsed<+S> = Parsed(acc: S, error: Common.Option<ThriftError>, next: nat)

  /** `TApplicationException` types. */
  const UNKNOWN: int := 0
  const UNKNOWN_METHOD: int := 1
  const MISSING_RESULT: int := 5

  const MethodName: string := "is_valid_word"

  datatype Args = Args(requestMetadata: Types.RequestMetadata, word: string, issetRequestMetadata: bool, issetWord: bool)
  datatype IsValidWordResult = IsValidWordResult(success: bool, issetSuccess: bool)
  datatype AppException = AppException(kind: int, message: string)

  /** What the handler's `is_valid_word` does: return, or throw an exception
      whose `what()` is given. */
  datatype Handled = Returned(valid: bool) | Threw(what: string)

  const DefaultMetadata: Types.RequestMetadata := Types.RequestMetadata("", Common.None)
  const DefaultArgs: Args := Args(DefaultMetadata, "", false, false)
  const DefaultResult: IsValidWordResult := IsValidWordResult(false, false)
  const DefaultAppException: AppException := AppException(UNKNOWN, "")

  // ---------------------------------------------------------------------
  // Struct reading

  /** The struct-reading loop: read field headers until the stop marker,
      letting `step` take each field in; the end of the input and a message
      header stop it with an error. */
  function ReadStruct<S>(input: seq<Token>, pos: nat, acc: S, step: (S, int, Value) -> S): (r: Parsed<S>)
    requires pos <= |input|
    ensures pos <= r.next <= |input|
    ensures r.error == Common.Some(EndOfInput) ==> r.next == |input|
    ensures r.error.None? ==> pos < r.next && input[r.next - 1] == FieldStop
    ensures r.error.None? || r.error == Common.Some(EndOfInput) || r.error == Common.Some(Malformed)
    decreases |input| - pos
  {
    if pos == |input| then Parsed(acc, Common.Some(EndOfInput), pos)
    else match input[pos]
      case FieldStop => Parsed(acc, Common.None, pos + 1)
      case MessageBegin(_, _, _) => Parsed(acc, Common.Some(Malformed), pos + 1)
      case FieldBegin(id, v) => ReadStruct(input, pos + 1, step(acc, id, v), step)
  }

  /** The args reader's switch: field 1 as a struct is the request
      metadata, field 2 as a string the word; anything else is skipped. */
  function ArgsField(a: Args, id: int, v: Value): Args {
    if id == 1 && v.StructV? then a.(requestMetadata := v.meta, issetRequestMetadata := true)
    else if id == 2 && v.StringV? then a.(word := v.s, issetWord := true)
    else a
  }

  /** The result reader's switch: field 0 as a bool is the success value. */
  function ResultField(r: IsValidWordResult, id: int, v: Value): IsValidWordResult {
    if id == 0 && v.BoolV? then r.(success := v.b, issetSuccess := true) else r
  }

  /** `TApplicationException::read`'s switch: field 1 as a string is the
      message, field 2 as an i32 the type. */
  function AppExceptionField(x: AppException, id: int, v: Value): AppException {
    if id == 1 && v.StringV? then x.(message := v.s)
    else if id == 2 && v.I32V? then x.(kind := v.i)
    else x
  }

  /** `skip(T_STRUCT)`: every field is passed over. */
  function SkipField(u: (), id: int, v: Value): () {
    ()
  }

  /** Whether the args reader skips a field. */
  predicate ArgsSkips(id: int, v: Value) {
    !(id == 1 && v.StructV?) && !(id == 2 && v.StringV?)
  }

  // ---------------------------------------------------------------------
  // Writing

  /** Args `write` (and pargs `write`): field 1, field 2, stop, whatever the
      isset flags say. */
  function ArgsTokens(meta: Types.RequestMetadata, word: string): (ts: seq<Token>) {
    [FieldBegin(1, StructV(meta)), FieldBegin(2, StringV(word)), FieldStop]
  }

  /** Result `write`: field 0 only when success is set, then stop. */
  function ResultTokens(r: IsValidWordResult): (ts: seq<Token>) {
    (if r.issetSuccess then [FieldBegin(0, BoolV(r.success))] else []) + [FieldStop]
  }

  /** `TApplicationException::write`: the message as field 1, the type as
      field 2, stop. */
  function AppExceptionTokens(x: AppException): (ts: seq<Token>) {
    [FieldBegin(1, StringV(x.message)), FieldBegin(2, I32V(x.kind)), FieldStop]
  }

  /** `send_is_valid_word`: a call message with sequence id 0 and the args. */
  function SendTokens(meta: Types.RequestMetadata, word: string): (ts: seq<Token>) {
    [MessageBegin(MethodName, Call, 0)] + ArgsTokens(meta, word)
  }

  // ---------------------------------------------------------------------
  // Client and processor, as specifications

  datatype Received = Received(result: Result<bool>, next: nat)

  /** `skip(T_STRUCT)` when `skip` holds, nothing otherwise. */
  function SkipIf(skip: bool, input: seq<Token>, pos: nat): (r: Parsed<()>)
    requires pos <= |input|
    ensures pos <= r.next <= |input|
  {
    if skip then ReadStruct(input, pos, (), SkipField) else Parsed((), Common.None, pos)
  }

  /** `recv_is_valid_word`: read the message header, then the body. */
  function RecvSpec(input: seq<Token>, pos: nat): (r: Received)
    requires pos <= |input|
    ensures pos <= r.next <= |input|
  {
    if pos == |input| then Received(Failure(EndOfInput), pos)
    else if !input[pos].MessageBegin? then Received(Failure(Malformed), pos + 1)
    else RecvBody(input, pos + 1, input[pos].name, input[pos].mtype)
  }

  /** The body of the reply to `recv_is_valid_word`: an exception message
      is decoded and thrown; a message of another type, or for another
      method, has one struct skipped, after which a result struct is read
      all the same; a result without success is MISSING_RESULT. */
  function RecvBody(input: seq<Token>, pos: nat, fname: string, mtype: MessageType): (r: Received)
    requires pos <= |input|
    ensures pos <= r.next <= |input|
  {
    if mtype == Exception then
      var x := ReadStruct(input, pos, DefaultAppException, AppExceptionField);
      if x.error.Some? then Received(Failure(x.error.value), x.next)
      else Received(Failure(ApplicationError(x.acc.kind, x.acc.message)), x.next)
    else
      var s1 := SkipIf(mtype != Reply, input, pos);
      if s1.error.Some? then Received(Failure(s1.error.value), s1.next)
      else
        var s2 := SkipIf(fname != MethodName, input, s1.next);
        if s2.error.Some? then Received(Failure(s2.error.value), s2.next)
        else RecvResult(input, s2.next)
  }

  /** Reading the result struct: its success value, or MISSING_RESULT. */
  function RecvResult(input: seq<Token>, pos: nat): (r: Received)
    requires pos <= |input|
    ensures pos <= r.next <= |input|
  {
    var res := ReadStruct(input, pos, DefaultResult, ResultField);
    if res.error.Some? then Received(Failure(res.error.value), res.next)
    else if res.acc.issetSuccess then Received(Success(res.acc.success), res.next)
    else Received(Failure(ApplicationError(MISSING_RESULT, "is_valid_word failed: unknown result")), res.next)
  }

  /** What the processor does with one incoming call: the error that
      escapes, if any, the input position after it, and the tokens written. */
  datatype Served = Served(error: Common.Option<ThriftError>, next: nat, written: seq<Token>)

  /** `process_is_valid_word`: read the args (an error escapes with nothing
      written), call the handler, and reply with the result, or with an
      UNKNOWN application exception carrying the handler's `what()`. */
  function ProcessSpec(input: seq<Token>, pos: nat, seqid: int, handler: (Types.RequestMetadata, string) -> Handled): (r: Served)
    requires pos <= |input|
    ensures pos <= r.next <= |input|
    ensures r.error.None? <==> ReadStruct(input, pos, DefaultArgs, ArgsField).error.None?
  {
    var a := ReadStruct(input, pos, DefaultArgs, ArgsField);
    if a.error.Some? then Served(a.error, a.next, [])
    else match handler(a.acc.requestMetadata, a.acc.word)
      case Threw(what) =>
        Served(Common.None, a.next, [MessageBegin(MethodName, Exception, seqid)] + AppExceptionTokens(AppException(UNKNOWN, what)))
      case Returned(valid) =>
        Served(Common.None, a.next, [MessageBegin(MethodName, Reply, seqid)] + ResultTokens(IsValidWordResult(valid, true)))
  }

  /** The message naming an unknown method. */
  function InvalidMethodMessage(fname: string): string {
    "Invalid method name: '" + fname + "'"
  }

  /** `dispatchCall`: the only method is "is_valid_word"; any other name has
      its args skipped and is answered with an UNKNOWN_METHOD exception
      message under the same name and sequence id. */
  function DispatchSpec(input: seq<Token>, pos: nat, fname: string, seqid: int,
                        handler: (Types.RequestMetadata, string) -> Handled): (r: Served)
    requires pos <= |input|
    ensures pos <= r.next <= |input|
  {
    if fname == MethodName then ProcessSpec(input, pos, seqid, handler)
    else
      var s := ReadStruct(input, pos, (), SkipField);
      if s.error.Some? then Served(s.error, s.next, [])
      else Served(Common.None, s.next, [MessageBegin(fname, Exception, seqid)]
                                       + AppExceptionTokens(AppException(UNKNOWN_METHOD, InvalidMethodMessage(fname))))
  }

  // ---------------------------------------------------------------------
  // Protocol and generated classes

  /** A protocol over a transport: the tokens to read, the read position,
      and the tokens written so far. */
  class Protocol {
    var input: seq<Token>
    var pos: nat
    var output: seq<Token>

    constructor (incoming: seq<Token>)
      ensures input == incoming && pos == 0 && output == []
    {
      input, pos, output := incoming, 0, [];
    }

    predicate Valid()
      reads this
    {
      pos <= |input|
    }

    /** The next token, or none at the end of the input. */
    method ReadToken() returns (t: Common.Option<Token>)
      requires Valid()
      modifies this
      ensures Valid() && input == old(input) && output == old(output)
      ensures old(pos) == |input| ==> t.None? && pos == old(pos)
      ensures old(pos) < |input| ==> t == Common.Some(input[old(pos)]) && pos == old(pos) + 1
    {
      if pos == |input| {
        return Common.None;
      }
      t := Common.Some(input[pos]);
      pos := pos + 1;
    }

    method WriteToken(t: Token)
      modifies this
      ensures output == old(output) + [t] && input == old(input) && pos == old(pos)
    {
      output := output + [t];
    }

    /** Write several tokens in order. */
    method WriteTokens(ts: seq<Token>)
      modifies this
      ensures output == old(output) + ts && input == old(input) && pos == old(pos)
    {
      output := output + ts;
    }
  }

  /** The library's struct loop, used for `skip(T_STRUCT)` and
      `TApplicationException::read`. */
  method ReadInto<S>(p: Protocol, init: S, step: (S, int, Value) -> S) returns (r: Parsed<S>)
    requires p.Valid()
    modifies p
    ensures p.Valid() && p.input == old(p.input) && p.output == old(p.output)
    ensures r == ReadStruct(old(p.input), old(p.pos), init, step) && p.pos == r.next
  {
    var acc := init;
    while true
      invariant p.Valid() && p.input == old(p.input) && p.output == old(p.output)
      invariant ReadStruct(p.input, p.pos, acc, step) == ReadStruct(old(p.input), old(p.pos), init, step)
      decreases |p.input| - p.pos
    {
      var t := p.ReadToken();
      if t.None? {
        return Parsed(acc, Common.Some(EndOfInput), p.pos);
      }
      match t.value
      case FieldStop =>
        return Parsed(acc, Common.None, p.pos);
      case MessageBegin(_, _, _) =>
        return Parsed(acc, Common.Some(Malformed), p.pos);
      case FieldBegin(id, v) =>
        acc := step(acc, id, v);
    }
  }

  /** `TWordfilterService_is_valid_word_args`. */
  class ArgsStruct {
    var requestMetadata: Types.RequestMetadata
    var word: string
    var issetRequestMetadata: bool
    var issetWord: bool

    constructor ()
      ensures Value() == DefaultArgs
    {
      requestMetadata, word := DefaultMetadata, "";
      issetRequestMetadata, issetWord := false, false;
    }

    function Value(): Args
      reads this
    {
      Args(requestMetadata, word, issetRequestMetadata, issetWord)
    }

    /** `read`: loop over the fields until the stop marker, setting a field
        and its isset flag when id and type match, skipping the field
        otherwise. */
    method Read(iprot: Protocol) returns (err: Common.Option<ThriftError>)
      requires iprot.Valid()
      modifies this, iprot
      ensures iprot.Valid() && iprot.input == old(iprot.input) && iprot.output == old(iprot.output)
      ensures Parsed(Value(), err, iprot.pos) == ReadStruct(old(iprot.input), old(iprot.pos), old(Value()), ArgsField)
    {
      while true
        invariant iprot.Valid() && iprot.input == old(iprot.input) && iprot.output == old(iprot.output)
        invariant ReadStruct(iprot.input, iprot.pos, Value(), ArgsField)
                  == ReadStruct(old(iprot.input), old(iprot.pos), old(Value()), ArgsField)
        decreases |iprot.input| - iprot.pos
      {
        var t := iprot.ReadToken();
        if t.None? {
          return Common.Some(EndOfInput);
        }
        match t.value
        case FieldStop =>
          return Common.None;
        case MessageBegin(_, _, _) =>
          return Common.Some(Malformed);
        case FieldBegin(id, v) =>
          if id == 1 && v.StructV? {
            requestMetadata := v.meta;
            issetRequestMetadata := true;
          } else if id == 2 && v.StringV? {
            word := v.s;
            issetWord := true;
          }
      }
    }

    /** `write`: field 1, field 2, stop. */
    method Write(oprot: Protocol)
      modifies oprot
      ensures oprot.output == old(oprot.output) + ArgsTokens(requestMetadata, word)
      ensures oprot.input == old(oprot.input) && oprot.pos == old(oprot.pos)
    {
      oprot.WriteToken(FieldBegin(1, StructV(requestMetadata)));
      oprot.WriteToken(FieldBegin(2, StringV(word)));
      oprot.WriteToken(FieldStop);
    }
  }

  /** `TWordfilterService_is_valid_word_pargs::write`: the same fields,
      from the caller's metadata and word. */
  method WritePargs(oprot: Protocol, meta: Types.RequestMetadata, word: string)
    modifies oprot
    ensures oprot.output == old(oprot.output) + ArgsTokens(meta, word)
    ensures oprot.input == old(oprot.input) && oprot.pos == old(oprot.pos)
  {
    oprot.WriteToken(FieldBegin(1, StructV(meta)));
    oprot.WriteToken(FieldBegin(2, StringV(word)));
    oprot.WriteToken(FieldStop);
  }

  /** `TWordfilterService_is_valid_word_result`, and the client's `presult`,
      which reads the same way into the caller's variable. */
  class ResultStruct {
    var success: bool
    var issetSuccess: bool

    constructor ()
      ensures Value() == DefaultResult
    {
      success, issetSuccess := false, false;
    }

    function Value(): IsValidWordResult
      reads this
    {
      IsValidWordResult(success, issetSuccess)
    }

    /** `read`: only field 0 as a bool is taken. */
    method Read(iprot: Protocol) returns (err: Common.Option<ThriftError>)
      requires iprot.Valid()
      modifies this, iprot
      ensures iprot.Valid() && iprot.input == old(iprot.input) && iprot.output == old(iprot.output)
      ensures Parsed(Value(), err, iprot.pos) == ReadStruct(old(iprot.input), old(iprot.pos), old(Value()), ResultField)
    {
      while true
        invariant iprot.Valid() && iprot.input == old(iprot.input) && iprot.output == old(iprot.output)
        invariant ReadStruct(iprot.input, iprot.pos, Value(), ResultField)
                  == ReadStruct(old(iprot.input), old(iprot.pos), old(Value()), ResultField)
        decreases |iprot.input| - iprot.pos
      {
        var t := iprot.ReadToken();
        if t.None? {
          return Common.Some(EndOfInput);
        }
        match t.value
        case FieldStop =>
          return Common.None;
        case MessageBegin(_, _, _) =>
          return Common.Some(Malformed);
        case FieldBegin(id, v) =>
          if id == 0 && v.BoolV? {
            success := v.b;
            issetSuccess := true;
          }
      }
    }

    /** `write`: field 0 only when set, then stop. */
    method Write(oprot: Protocol)
      modifies oprot
      ensures oprot.output == old(oprot.output) + ResultTokens(Value())
      ensures oprot.input == old(oprot.input) && oprot.pos == old(oprot.pos)
    {
      if issetSuccess {
        oprot.WriteToken(FieldBegin(0, BoolV(success)));
      }
      oprot.WriteToken(FieldStop);
    }
  }

  /** `TWordfilterServiceClient`. */
  class TWordfilterServiceClient {
    const iprot: Protocol
    const oprot: Protocol

    constructor (i: Protocol, o: Protocol)
      ensures iprot == i && oprot == o
    {
      iprot, oprot := i, o;
    }

    /** `send_is_valid_word`. */
    method SendIsValidWord(meta: Types.RequestMetadata, word: string)
      modifies oprot
      ensures oprot.output == old(oprot.output) + SendTokens(meta, word)
      ensures oprot.input == old(oprot.input) && oprot.pos == old(oprot.pos)
    {
      oprot.WriteToken(MessageBegin(MethodName, Call, 0));
      WritePargs(oprot, meta, word);
    }

    /** `recv_is_valid_word`. */
    method RecvIsValidWord() returns (r: Result<bool>)
      requires iprot.Valid()
      modifies iprot
      ensures iprot.Valid() && iprot.input == old(iprot.input) && iprot.output == old(iprot.output)
      ensures Received(r, iprot.pos) == RecvSpec(old(iprot.input), old(iprot.pos))
    {
      var header := iprot.ReadToken();
      if header.None? {
        return Failure(EndOfInput);
      }
      if !header.value.MessageBegin? {
        return Failure(Malformed);
      }
      r := RecvBodyFrom(header.value.name, header.value.mtype);
    }

    /** What `recv_is_valid_word` does after the message header. */
    method RecvBodyFrom(fname: string, mtype: MessageType) returns (r: Result<bool>)
      requires iprot.Valid()
      modifies iprot
      ensures iprot.Valid() && iprot.input == old(iprot.input) && iprot.output == old(iprot.output)
      ensures Received(r, iprot.pos) == RecvBody(old(iprot.input), old(iprot.pos), fname, mtype)
    {
      if mtype == Exception {
        var x := ReadInto(iprot, DefaultAppException, AppExceptionField);
        if x.error.Some? {
          return Failure(x.error.value);
        }
        return Failure(ApplicationError(x.acc.kind, x.acc.message));
      }
      if mtype != Reply {
        var s := ReadInto(iprot, (), SkipField);
        if s.error.Some? {
          return Failure(s.error.value);
        }
      }
      if fname != MethodName {
        var s := ReadInto(iprot, (), SkipField);
        if s.error.Some? {
          return Failure(s.error.value);
        }
      }
      r := ReadResult();
    }

    /** The result struct read into `_return`, and its check. */
    method ReadResult() returns (r: Result<bool>)
      requires iprot.Valid()
      modifies iprot
      ensures iprot.Valid() && iprot.input == old(iprot.input) && iprot.output == old(iprot.output)
      ensures Received(r, iprot.pos) == RecvResult(old(iprot.input), old(iprot.pos))
    {
      var result := new ResultStruct();
      var err := result.Read(iprot);
      if err.Some? {
        return Failure(err.value);
      }
      if result.issetSuccess {
        return Success(result.success);
      }
      return Failure(ApplicationError(MISSING_RESULT, "is_valid_word failed: unknown result"));
    }

    /** `is_valid_word`: send, then receive. */
    method IsValidWord(meta: Types.RequestMetadata, word: string) returns (r: Result<bool>)
      requires iprot.Valid()
      modifies iprot, oprot
      ensures iprot.Valid() && iprot.input == old(iprot.input)
      ensures Received(r, iprot.pos) == RecvSpec(old(iprot.input), old(iprot.pos))
      ensures oprot.output == old(oprot.output) + SendTokens(meta, word)
    {
      SendIsValidWord(meta, word);
      r := RecvIsValidWord();
    }
  }

  /** `TWordfilterServiceProcessor` with its handler `iface_`. */
  class TWordfilterServiceProcessor {
    const handler: (Types.RequestMetadata, string) -> Handled

    constructor (h: (Types.RequestMetadata, string) -> Handled)
      ensures handler == h
    {
      handler := h;
    }

    /** `dispatchCall`, for a message header already read. */
    method DispatchCall(iprot: Protocol, oprot: Protocol, fname: string, seqid: int) returns (r: Result<bool>)
      requires iprot.Valid()
      modifies iprot, oprot
      ensures iprot.Valid() && iprot.input == old(iprot.input)
      ensures var s := DispatchSpec(old(iprot.input), old(iprot.pos), fname, seqid, handler);
        && iprot.pos == s.next && oprot.output == old(oprot.output) + s.written
        && (s.error.None? ==> r == Success(true)) && (s.error.Some? ==> r == Failure(s.error.value))
    {
      if fname != MethodName {
        var s := ReadInto(iprot, (), SkipField);
        if s.error.Some? {
          return Failure(s.error.value);
        }
        oprot.WriteToken(MessageBegin(fname, Exception, seqid));
        oprot.WriteTokens(AppExceptionTokens(AppException(UNKNOWN_METHOD, InvalidMethodMessage(fname))));
        return Success(true);
      }
      var err := ProcessIsValidWord(iprot, oprot, seqid);
      if err.Some? {
        return Failure(err.value);
      }
      return Success(true);
    }

    /** `process_is_valid_word`. */
    method ProcessIsValidWord(iprot: Protocol, oprot: Protocol, seqid: int) returns (err: Common.Option<ThriftError>)
      requires iprot.Valid()
      modifies iprot, oprot
      ensures iprot.Valid() && iprot.input == old(iprot.input)
      ensures var s := ProcessSpec(old(iprot.input), old(iprot.pos), seqid, handler);
        && err == s.error && iprot.pos == s.next && oprot.output == old(oprot.output) + s.written
    {
      var args := new ArgsStruct();
      err := args.Read(iprot);
      if err.Some? {
        return;
      }
      var outcome := handler(args.requestMetadata, args.word);
      if outcome.Threw? {
        oprot.WriteToken(MessageBegin(MethodName, Exception, seqid));
        oprot.WriteTokens(AppExceptionTokens(AppException(UNKNOWN, outcome.what)));
        return;
      }
      var result := new ResultStruct();
      result.success := outcome.valid;
      result.issetSuccess := true;
      oprot.WriteToken(MessageBegin(MethodName, Reply, seqid));
      result.Write(oprot);
    }
  }

  // ---------------------------------------------------------------------
  // Properties

  /** Reading back what args `write` emitted restores both fields and sets
      both isset flags, consuming exactly the three tokens. */
  lemma ArgsRoundTrip(input: seq<Token>, pos: nat, acc: Args, meta: Types.RequestMetadata, word: string)
    requires pos + 3 <= |input|
    requires input[pos] == FieldBegin(1, StructV(meta)) && input[pos + 1] == FieldBegin(2, StringV(word))
    requires input[pos + 2] == FieldStop
    ensures ReadStruct(input, pos, acc, ArgsField) == Parsed(Args(meta, word, true, true), Common.None, pos + 3)
  {
    var a1 := ArgsField(acc, 1, StructV(meta));
    var a2 := ArgsField(a1, 2, StringV(word));
    assert ReadStruct(input, pos + 2, a2, ArgsField) == Parsed(a2, Common.None, pos + 3);
    assert ReadStruct(input, pos + 1, a1, ArgsField) == ReadStruct(input, pos + 2, a2, ArgsField);
  }

  /** Reading back what result `write` emitted restores success exactly
      when it was set; an unset result leaves the reader's struct as it
      was. */
  lemma ResultRoundTrip(input: seq<Token>, pos: nat, acc: IsValidWordResult, r: IsValidWordResult)
    requires pos + |ResultTokens(r)| <= |input| && input[pos..pos + |ResultTokens(r)|] == ResultTokens(r)
    ensures ReadStruct(input, pos, acc, ResultField)
            == Parsed(if r.issetSuccess then IsValidWordResult(r.success, true) else acc, Common.None, pos + |ResultTokens(r)|)
  {
    var ts := input[pos..pos + |ResultTokens(r)|];
    if r.issetSuccess {
      assert ts[0] == FieldBegin(0, BoolV(r.success)) && ts[1] == FieldStop;
      assert input[pos] == ts[0] && input[pos + 1] == ts[1];
    } else {
      assert input[pos] == ts[0] == FieldStop;
    }
  }

  /** Reading back an application exception restores its type and message. */
  lemma AppExceptionRoundTrip(input: seq<Token>, pos: nat, acc: AppException, x: AppException)
    requires pos + 3 <= |input| && input[pos..pos + 3] == AppExceptionTokens(x)
    ensures ReadStruct(input, pos, acc, AppExceptionField) == Parsed(x, Common.None, pos + 3)
  {
    var ts := input[pos..pos + 3];
    assert input[pos] == ts[0] == FieldBegin(1, StringV(x.message));
    assert input[pos + 1] == ts[1] == FieldBegin(2, I32V(x.kind));
    assert input[pos + 2] == ts[2] == FieldStop;
    var x1 := AppExceptionField(acc, 1, StringV(x.message));
    var x2 := AppExceptionField(x1, 2, I32V(x.kind));
    assert ReadStruct(input, pos + 2, x2, AppExceptionField) == Parsed(x2, Common.None, pos + 3);
    assert ReadStruct(input, pos + 1, x1, AppExceptionField) == ReadStruct(input, pos + 2, x2, AppExceptionField);
  }

  /** Fields of a wrong type or an unknown id are skipped: reading from
      before a run of them is reading from after it. */
  lemma {:induction false} ArgsSkipRun(input: seq<Token>, pos: nat, k: nat, acc: Args)
    requires pos + k <= |input|
    requires forall i :: pos <= i < pos + k ==> input[i].FieldBegin? && ArgsSkips(input[i].id, input[i].value)
    ensures ReadStruct(input, pos, acc, ArgsField) == ReadStruct(input, pos + k, acc, ArgsField)
    decreases k
  {
    if k > 0 {
      assert input[pos].FieldBegin? && ArgsSkips(input[pos].id, input[pos].value);
      ArgsSkipRun(input, pos + 1, k - 1, acc);
    }
  }

  /** A reply carrying no success field is reported as MISSING_RESULT. */
  lemma MissingResult(input: seq<Token>, pos: nat, seqid: int)
    requires pos + 2 <= |input|
    requires input[pos] == MessageBegin(MethodName, Reply, seqid) && input[pos + 1] == FieldStop
    ensures RecvSpec(input, pos)
            == Received(Failure(ApplicationError(MISSING_RESULT, "is_valid_word failed: unknown result")), pos + 2)
  {
  }

  /** The processor's output for a call, read by the client: the handler's
      value, or an UNKNOWN application exception carrying its `what()`. */
  lemma {:induction false} ReplyReceived(input: seq<Token>, pos: nat, seqid: int,
                                         handler: (Types.RequestMetadata, string) -> Handled)
    requires pos <= |input| && ProcessSpec(input, pos, seqid, handler).error.None?
    ensures var out := ProcessSpec(input, pos, seqid, handler).written;
      var a := ReadStruct(input, pos, DefaultArgs, ArgsField).acc;
      RecvSpec(out, 0) == Received(match handler(a.requestMetadata, a.word)
                                   case Returned(v) => Success(v)
                                   case Threw(w) => Failure(ApplicationError(UNKNOWN, w)), |out|)
  {
    var out := ProcessSpec(input, pos, seqid, handler).written;
    var a := ReadStruct(input, pos, DefaultArgs, ArgsField).acc;
    match handler(a.requestMetadata, a.word)
    case Returned(v) =>
      var r := IsValidWordResult(v, true);
      assert out == [MessageBegin(MethodName, Reply, seqid)] + ResultTokens(r);
      ResultRoundTrip(out, 1, DefaultResult, r);
    case Threw(w) =>
      assert out == [MessageBegin(MethodName, Exception, seqid)] + AppExceptionTokens(AppException(UNKNOWN, w));
      AppExceptionRoundTrip(out, 1, DefaultAppException, AppException(UNKNOWN, w));
  }

  /** A call to a method the service does not have is answered with an
      UNKNOWN_METHOD exception that the client raises. */
  lemma UnknownMethodReceived(input: seq<Token>, pos: nat, fname: string, seqid: int,
                              handler: (Types.RequestMetadata, string) -> Handled)
    requires pos <= |input| && fname != MethodName
    requires ReadStruct(input, pos, (), SkipField).error.None?
    ensures var out := DispatchSpec(input, pos, fname, seqid, handler).written;
      RecvSpec(out, 0) == Received(Failure(ApplicationError(UNKNOWN_METHOD, InvalidMethodMessage(fname))), |out|)
  {
    var x := AppException(UNKNOWN_METHOD, InvalidMethodMessage(fname));
    var out := DispatchSpec(input, pos, fname, seqid, handler).written;
    assert out == [MessageBegin(fname, Exception, seqid)] + AppExceptionTokens(x);
    AppExceptionRoundTrip(out, 1, DefaultAppException, x);
  }

  /** The whole call: what `send_is_valid_word` writes, dispatched by the
      processor after its header, is answered with what the handler does
      with the caller's metadata and word, and the client receives that. */
  lemma EndToEnd(meta: Types.RequestMetadata, word: string, handler: (Types.RequestMetadata, string) -> Handled)
    ensures var req := SendTokens(meta, word);
      var served := DispatchSpec(req, 1, req[0].name, req[0].seqid, handler);
      && served.error.None? && served.next == |req|
      && RecvSpec(served.written, 0).result
         == match handler(meta, word)
            case Returned(v) => Success(v)
            case Threw(w) => Failure(ApplicationError(UNKNOWN, w))
  {
    var req := SendTokens(meta, word);
    ArgsRoundTrip(req, 1, DefaultArgs, meta, word);
    ReplyReceived(req, 1, 0, handler);
  }

  /** Over the wire, the wordfilter built with n > 0 rejects "corinthians"
      and accepts "foobar". */
  lemma WordfilterOverTheWire(meta: Types.RequestMetadata, n: int, rand: nat -> nat)
    requires n > 0
    ensures var handler := (m: Types.RequestMetadata, w: string) => Returned(w !in Wordfilter.Blocklist(n, rand));
      && RecvSpec(DispatchSpec(SendTokens(meta, "corinthians"), 1, MethodName, 0, handler).written, 0).result == Success(false)
      && RecvSpec(DispatchSpec(SendTokens(meta, "foobar"), 1, MethodName, 0, handler).written, 0).result == Success(true)
  {
    var handler := (m: Types.RequestMetadata, w: string) => Returned(w !in Wordfilter.Blocklist(n, rand));
    Wordfilter.BlocklistShape(n, rand);
    Wordfilter.BlocklistLengths(n, rand);
    EndToEnd(meta, "corinthians", handler);
    EndToEnd(meta, "foobar", handler);
  }
}
