/** The generation service: recording a generation request (trimmed input,
    hashes and lengths, the proposal) and accepting or rejecting a
    generation through database procedures whose error codes it maps to
    three domain errors. The digest, the database and the clock are
    inputs. */
module GenerationService {
  import opened Wrappers
  import opened Text
  import opened AppErrors
  import AiAdapter

  newtype byte = x: int | 0 <= x < 256

  /** A lower-case hexadecimal digit. */
  function HexDigit(n: nat): char
    requires n < 16
  {
    if n < 10 then ('0' as int + n) as char else ('a' as int + n - 10) as char
  }

  /** `b.toString(16)`: one digit below 16, two otherwise. */
  function ByteToString16(b: byte): (r: string)
    ensures |r| == if b < 16 then 1 else 2
  {
    if b < 16 then [HexDigit(b as nat)] else [HexDigit(b as nat / 16), HexDigit(b as nat % 16)]
  }

  /** `s.padStart(2, "0")`. */
  function PadStart2(s: string): (r: string)
    ensures |s| <= 2 ==> |r| == 2
  {
    if |s| >= 2 then s else if |s| == 1 then "0" + s else "00"
  }

  /** Hex encoding of a digest, two lower-case digits per byte. */
  function HexEncode(bytes: seq<byte>): (r: string)
    ensures |r| == 2 * |bytes|
  {
    if bytes == [] then [] else PadStart2(ByteToString16(bytes[0])) + HexEncode(bytes[1..])
  }

  /** The value of a lower-case hexadecimal digit. */
  function DigitValue(c: char): Option<nat> {
    if '0' <= c <= '9' then Some(c as int - '0' as int)
    else if 'a' <= c <= 'f' then Some(c as int - 'a' as int + 10)
    else None
  }

  /** Reads the bytes back from their hex encoding. */
  function HexDecode(s: string): Option<seq<byte>>
    decreases |s|
  {
    if s == [] then Some([])
    else if |s| < 2 || DigitValue(s[0]).None? || DigitValue(s[1]).None? then None
    else
      match HexDecode(s[2..])
      case None => None
      case Some(rest) => Some([(16 * DigitValue(s[0]).value + DigitValue(s[1]).value) as byte] + rest)
  }

  /** A padded byte is its two digits, high one first. */
  lemma ByteDigits(b: byte)
    ensures PadStart2(ByteToString16(b)) == [HexDigit(b as nat / 16), HexDigit(b as nat % 16)]
    ensures DigitValue(HexDigit(b as nat / 16)) == Some(b as nat / 16)
    ensures DigitValue(HexDigit(b as nat % 16)) == Some(b as nat % 16)
  {
    if b < 16 {
      assert PadStart2([HexDigit(b as nat)]) == "0" + [HexDigit(b as nat)];
    }
  }

  /** Decoding inverts encoding, so two digests with the same encoding are
      the same digest. */
  lemma {:induction false} HexRoundTrip(bytes: seq<byte>)
    ensures HexDecode(HexEncode(bytes)) == Some(bytes)
    decreases |bytes|
  {
    if bytes != [] {
      var b := bytes[0];
      var hi, lo := b as nat / 16, b as nat % 16;
      ByteDigits(b);
      var e := HexEncode(bytes);
      assert e == [HexDigit(hi), HexDigit(lo)] + HexEncode(bytes[1..]);
      assert e[2..] == HexEncode(bytes[1..]);
      HexRoundTrip(bytes[1..]);
      assert 16 * hi + lo == b as nat;
      assert [bytes[0]] + bytes[1..] == bytes;
    }
  }

  /** The digest of a string (its UTF-8 encoding hashed), as an input. */
  type Digest = string -> seq<byte>

  function Sha256Hex(value: string, digest: Digest): string {
    HexEncode(digest(value))
  }

  /** A 32-byte digest gives 64 characters, and equal hashes mean equal
      digests. */
  lemma HashShape(a: string, b: string, digest: Digest)
    requires |digest(a)| == 32
    ensures |Sha256Hex(a, digest)| == 64
    ensures Sha256Hex(a, digest) == Sha256Hex(b, digest) ==> digest(a) == digest(b)
  {
    HexRoundTrip(digest(a));
    HexRoundTrip(digest(b));
  }

  /** The inserted generation row; `status` is `None` for SQL null. */
  datatype GenerationRecord = GenerationRecord(
    userId: string, model: string, titleHash: string, titleLength: nat,
    textHash: string, textLength: nat, duration: int, status: Option<string>)

  /** The error-log row written when the insert fails. */
  datatype ErrorLog = ErrorLog(
    userId: string, model: string, titleHash: string, titleLength: nat,
    textHash: string, errorCode: string, errorMessage: string)

  /** A database error; an absent code or message is the empty string. */
  datatype DbError = DbError(code: string, message: string)

  /** How the insert ends: the new row's id, and an error, each possibly
      absent. */
  datatype InsertAnswer = InsertAnswer(id: Option<string>, error: Option<DbError>)

  /** The response: the new generation's id, a null status and the
      proposal. */
  datatype GenerationCreation = GenerationCreation(id: string, status: Option<string>, proposal: AiAdapter.Proposal)

  const InsertFailed := "Database insert failed"
  const DefaultErrorCode := "insert_error"
  const DefaultErrorMessage := "Unknown error during generation insert"

  /** The outcome of a generation request: the row it inserts, the
      error-log row it writes when the insert fails, and the response or the
      error it throws. */
  datatype Generated = Generated(record: GenerationRecord, logged: Option<ErrorLog>,
                                 result: Result<GenerationCreation, Thrown>)

  /** The request once its title and content are trimmed to `t` and `c`:
      the row holds their lengths and hashes, a failed insert is logged with
      its code (or a default) and rethrown as one fixed error, and a
      successful one answers with the new id and the proposal. */
  function GenerateTrimmed(userId: string, t: string, c: string, digest: Digest,
                           answer: InsertAnswer, duration: int): (g: Generated)
    ensures g.record.titleLength == |t| && g.record.textLength == |c|
    ensures g.record.titleHash == Sha256Hex(t, digest) && g.record.textHash == Sha256Hex(c, digest)
    ensures g.record.model == AiAdapter.MockModel && g.record.status.None? && g.record.userId == userId
    ensures g.result.Success? <==> answer.error.None? && answer.id.Some?
    ensures g.logged.Some? <==> g.result.Failure?
    ensures g.result.Success? ==>
              g.result.value == GenerationCreation(answer.id.value, None, AiAdapter.GenerateRecipeProposal(t, c))
    ensures g.result.Failure? ==> g.result.error == PlainError(InsertFailed)
    ensures g.logged.Some? ==>
              g.logged.value.errorCode ==
                (if answer.error.Some? && answer.error.value.code != "" then answer.error.value.code else DefaultErrorCode)
    ensures g.logged.Some? ==>
              g.logged.value.errorMessage ==
                (if answer.error.Some? && answer.error.value.message != "" then answer.error.value.message
                 else DefaultErrorMessage)
    ensures g.logged.Some? ==>
              var log := g.logged.value;
              && log.userId == userId && log.model == g.record.model
              && log.titleHash == g.record.titleHash && log.titleLength == g.record.titleLength
              && log.textHash == g.record.textHash
  {
    var proposal := AiAdapter.GenerateRecipeProposal(t, c);
    var record := GenerationRecord(userId, proposal.model, Sha256Hex(t, digest), |t|,
                                   Sha256Hex(c, digest), |c|, duration, None);
    if answer.error.Some? || answer.id.None? then
      var code := if answer.error.Some? && answer.error.value.code != "" then answer.error.value.code else DefaultErrorCode;
      var message := if answer.error.Some? && answer.error.value.message != "" then answer.error.value.message
                     else DefaultErrorMessage;
      var log := ErrorLog(userId, proposal.model, record.titleHash, record.titleLength, record.textHash, code, message);
      Generated(record, Some(log), Failure(PlainError(InsertFailed)))
    else Generated(record, None, Success(GenerationCreation(answer.id.value, None, proposal)))
  }

  /** How the user service's preferences query ends: the values of the
      rows (none when the query returns no data), or a database error. */
  datatype PreferencesAnswer = PreferencesRows(prefs: seq<string>) | PreferencesFailed(message: string)

  const PreferencesFailedPrefix := "Could not fetch user diet preferences: "

  /** The user service's preferences lookup: a query error is thrown with
      its message behind a fixed prefix, otherwise the values come back. */
  function GetDietPreferences(answer: PreferencesAnswer): (r: Result<seq<string>, Thrown>)
    ensures r.Success? <==> answer.PreferencesRows?
    ensures r.Success? ==> r.value == answer.prefs
    ensures r.Failure? ==>
              && r.error.PlainError? && |r.error.message| >= |PreferencesFailedPrefix|
              && r.error.message[..|PreferencesFailedPrefix|] == PreferencesFailedPrefix
              && r.error.message[|PreferencesFailedPrefix|..] == answer.message
  {
    match answer
    case PreferencesRows(prefs) => Success(prefs)
    case PreferencesFailed(m) => Failure(PlainError(PreferencesFailedPrefix + m))
  }

  /** The names of the methods the user service defines. */
  const UserServiceMethods: set<string> := {"getDietPreferences"}

  /** `this.userService[name](userId)`: a name the service does not define
      reads as `undefined`, and calling that throws a TypeError, an `Error`
      whose message names the callee. */
  function CallUserService(name: string, answer: PreferencesAnswer): (r: Result<seq<string>, Thrown>)
    ensures name in UserServiceMethods ==> r == GetDietPreferences(answer)
    ensures name !in UserServiceMethods ==> r.Failure? && r.error.PlainError?
  {
    if name in UserServiceMethods then GetDietPreferences(answer)
    else Failure(PlainError("this.userService." + name + " is not a function"))
  }

  /** How a generation request ends: it throws before anything is written,
      or it reaches the insert, with the outcome that step has. */
  datatype Request = Aborted(error: Thrown) | Reached(generated: Generated)

  /** A generation request whose preferences lookup calls the user service
      method `lookup`. The title and content are trimmed first; the lookup
      runs before the proposal, the hashes and the insert, so a failing
      lookup writes neither a row nor an error log. `duration` is the
      elapsed time the clock gives. */
  function GenerateWith(lookup: string, userId: string, title: string, content: string,
                        prefs: PreferencesAnswer, digest: Digest, answer: InsertAnswer, duration: int): (r: Request)
    ensures r.Aborted? <==> CallUserService(lookup, prefs).Failure?
    ensures r.Aborted? ==> r.error == CallUserService(lookup, prefs).error
    ensures r.Reached? ==> r.generated == GenerateTrimmed(userId, Trim(title), Trim(content), digest, answer, duration)
  {
    var t := Trim(title);
    var c := Trim(content);
    match CallUserService(lookup, prefs)
    case Failure(e) => Aborted(e)
    case Success(_) => Reached(GenerateTrimmed(userId, t, c, digest, answer, duration))
  }

  /** The request as written: it asks the user service for
      `getUserDietPreferences`, a method the service does not have. */
  function GenerateRecipeAsWritten(userId: string, title: string, content: string, prefs: PreferencesAnswer,
                                   digest: Digest, answer: InsertAnswer, duration: int): (r: Request)
    ensures r.Aborted? && r.error.PlainError?
  {
    GenerateWith("getUserDietPreferences", userId, title, content, prefs, digest, answer, duration)
  }

  /** The request as intended, with the service's `getDietPreferences`: it
      throws the lookup's error exactly when the preferences query fails,
      and otherwise goes on to the insert of the trimmed title and
      content. */
  function GenerateRecipe(userId: string, title: string, content: string, prefs: PreferencesAnswer,
                          digest: Digest, answer: InsertAnswer, duration: int): (r: Request)
    ensures r.Aborted? <==> prefs.PreferencesFailed?
    ensures r.Aborted? ==> r.error == PlainError(PreferencesFailedPrefix + prefs.message)
    ensures r.Reached? ==> r.generated == GenerateTrimmed(userId, Trim(title), Trim(content), digest, answer, duration)
  {
    GenerateWith("getDietPreferences", userId, title, content, prefs, digest, answer, duration)
  }

  /** The status the generations endpoint answers for a request: 202 with
      the created generation, 500 for anything thrown. */
  function GenerationsStatus(r: Request): (status: int)
    ensures status == 202 <==> r.Reached? && r.generated.result.Success?
    ensures status in {202, 500}
  {
    if r.Reached? && r.generated.result.Success? then 202 else 500
  }

  /** As written, every generation request fails before the insert: no row,
      no error log, and the endpoint answers 500 whatever the database
      would have said. */
  lemma AsWrittenAlwaysFails(userId: string, title: string, content: string, prefs: PreferencesAnswer,
                             digest: Digest, answer: InsertAnswer, duration: int)
    ensures GenerateRecipeAsWritten(userId, title, content, prefs, digest, answer, duration)
            == Aborted(PlainError("this.userService.getUserDietPreferences is not a function"))
    ensures GenerationsStatus(GenerateRecipeAsWritten(userId, title, content, prefs, digest, answer, duration)) == 500
  {
    assert "getUserDietPreferences" !in UserServiceMethods;
    assert "this.userService." + "getUserDietPreferences" + " is not a function"
           == "this.userService.getUserDietPreferences is not a function";
  }

  /** As intended, a request whose lookup and insert both succeed is
      answered with 202. */
  lemma IntendedCanSucceed(userId: string, title: string, content: string, prefs: PreferencesAnswer,
                           digest: Digest, answer: InsertAnswer, duration: int)
    requires prefs.PreferencesRows? && answer.error.None? && answer.id.Some?
    ensures GenerationsStatus(GenerateRecipe(userId, title, content, prefs, digest, answer, duration)) == 202
  {
  }

  /** Surrounding whitespace in the command changes nothing: the request
      behaves as if it had been sent trimmed. */
  lemma OnlyTrimmedInputMatters(userId: string, title: string, content: string, prefs: PreferencesAnswer,
                                digest: Digest, answer: InsertAnswer, duration: int)
    ensures GenerateRecipe(userId, Trim(title), Trim(content), prefs, digest, answer, duration)
            == GenerateRecipe(userId, title, content, prefs, digest, answer, duration)
  {
    TrimIdempotent(title);
    TrimIdempotent(content);
  }

  const GenerationNotFound := "GENERATION_NOT_FOUND"
  const GenerationAlreadyProcessed := "GENERATION_ALREADY_PROCESSED"
  const DatabaseError := "DATABASE_ERROR"
  const KnownErrors: set<string> := {GenerationNotFound, GenerationAlreadyProcessed, DatabaseError}

  /** The domain error for a database error code: no data found, a unique
      violation, anything else. */
  function ErrorForCode(code: string): (m: string)
    ensures m in KnownErrors
    ensures m == GenerationNotFound <==> code == "02000"
    ensures m == GenerationAlreadyProcessed <==> code == "23505"
  {
    if code == "02000" then GenerationNotFound
    else if code == "23505" then GenerationAlreadyProcessed
    else DatabaseError
  }

  /** How a database procedure call ends: it returns data and an error (the
      code of an absent error field is `None`), or the call itself throws. */
  datatype RpcAnswer = RpcReturned(data: Option<string>, errorCode: Option<string>) | RpcThrew(thrown: Thrown)

  /** The handler around both procedure calls: a thrown `Error` whose
      message is one of the domain errors passes unchanged; anything else
      becomes a database error. */
  function Rethrow(t: Thrown): (r: Thrown)
    ensures r.IsError() && r.message in KnownErrors
    ensures t.IsError() && t.message in KnownErrors ==> r == t
  {
    if t.IsError() && t.message in KnownErrors then t else PlainError(DatabaseError)
  }

  /** Accepting a generation, which creates a recipe; the result is the new
      recipe's id. Empty or missing data is a database error. */
  function AcceptGeneration(answer: RpcAnswer): (r: Result<string, Thrown>)
    ensures r.Failure? ==> r.error.IsError() && r.error.message in KnownErrors
    ensures r.Success? <==> answer.RpcReturned? && answer.errorCode.None? && answer.data.Some? && answer.data.value != ""
    ensures answer.RpcReturned? && answer.errorCode.Some? ==> r == Failure(PlainError(ErrorForCode(answer.errorCode.value)))
    ensures answer.RpcReturned? && answer.errorCode.None? && (answer.data.None? || answer.data.value == "") ==>
              r == Failure(PlainError(DatabaseError))
    ensures answer.RpcThrew? ==> r == Failure(Rethrow(answer.thrown))
  {
    match answer
    case RpcThrew(t) => Failure(Rethrow(t))
    case RpcReturned(data, code) =>
      if code.Some? then Failure(Rethrow(PlainError(ErrorForCode(code.value))))
      else if data.None? || data.value == "" then Failure(Rethrow(PlainError(DatabaseError)))
      else Success(data.value)
  }

  /** Rejecting a generation. */
  function RejectGeneration(answer: RpcAnswer): (r: Result<(), Thrown>)
    ensures r.Failure? ==> r.error.IsError() && r.error.message in KnownErrors
    ensures r.Success? <==> answer.RpcReturned? && answer.errorCode.None?
    ensures answer.RpcReturned? && answer.errorCode.Some? ==> r == Failure(PlainError(ErrorForCode(answer.errorCode.value)))
    ensures answer.RpcThrew? ==> r == Failure(Rethrow(answer.thrown))
  {
    match answer
    case RpcThrew(t) => Failure(Rethrow(t))
    case RpcReturned(_, code) =>
      if code.Some? then Failure(Rethrow(PlainError(ErrorForCode(code.value)))) else Success(())
  }

  /** Accepting and rejecting report the same error for the same database
      error code or thrown value. */
  lemma AcceptRejectAgree(answer: RpcAnswer)
    requires answer.RpcThrew? || answer.errorCode.Some?
    ensures AcceptGeneration(answer).Failure? && RejectGeneration(answer).Failure?
    ensures AcceptGeneration(answer).error == RejectGeneration(answer).error
  {
  }

  /** A thrown value that is not a domain error is reported as a database
      error, whatever it said. */
  lemma UnknownFailuresBecomeDatabaseError(m: string)
    requires m !in KnownErrors
    ensures AcceptGeneration(RpcThrew(PlainError(m))) == Failure(PlainError(DatabaseError))
    ensures AcceptGeneration(RpcThrew(NotAnError)) == Failure(PlainError(DatabaseError))
  {
  }
}
