/**
 * The connector's error-code table and the exceptions its operations catch.
 *
 * The table has nine declared entries. Three more entries are referenced by the
 * operations but not declared in `Error`, and several JSON keys they use are
 * not declared in `AzureConstants`:
 * their values are fields of `Undeclared`, so every statement of the model
 * holds whatever those values are.
 */
module Errors {

  import opened Common

  /** One entry of the error enum. */
  datatype Error =
    | ConnectionError
    | InvalidConfiguration
    | MissingParameters
    | AuthenticationError
    | FileAlreadyExistsError
    | FileIoError
    | DataLakeStorageGen2Error
    | FilePermissionError
    | GeneralError
      // Referenced by ReadFile, ListFileSystems and UploadFile, not declared in `Error`:
    | TimeoutError
    | IoException
    | NoSuchAlgorithm

  /** Values the operations use that neither `Error` nor `AzureConstants` declares. */
  datatype Undeclared = Undeclared(
    statusKey: string,        // AzureConstants.STATUS
    messageKey: string,       // AzureConstants.MESSAGE
    contentKey: string,       // AzureConstants.CONTENT
    lengthKey: string,        // AzureConstants.LENGTH
    appendSizeKey: string,    // AzureConstants.APPENDSIZE
    timeoutCode: string, timeoutMessage: string,                   // Error.TIMEOUT_ERROR
    ioCode: string, ioMessage: string,                             // Error.IO_EXCEPTION
    noSuchAlgorithmCode: string, noSuchAlgorithmMessage: string)   // Error.No_SUCH_ALGORITHM

  /** The entries the enum declares. */
  predicate Declared(e: Error) {
    !(e.TimeoutError? || e.IoException? || e.NoSuchAlgorithm?)
  }

  /** Position of a declared entry in the enum, counting from zero. */
  function Ordinal(e: Error): (n: nat)
    requires Declared(e)
    ensures n < 9
  {
    match e
    case ConnectionError => 0
    case InvalidConfiguration => 1
    case MissingParameters => 2
    case AuthenticationError => 3
    case FileAlreadyExistsError => 4
    case FileIoError => 5
    case DataLakeStorageGen2Error => 6
    case FilePermissionError => 7
    case GeneralError => 8
  }

  /** The Java name of an entry. */
  function Name(e: Error): string {
    match e
    case ConnectionError => "CONNECTION_ERROR"
    case InvalidConfiguration => "INVALID_CONFIGURATION"
    case MissingParameters => "MISSING_PARAMETERS"
    case AuthenticationError => "AUTHENTICATION_ERROR"
    case FileAlreadyExistsError => "FILE_ALREADY_EXISTS_ERROR"
    case FileIoError => "FILE_IO_ERROR"
    case DataLakeStorageGen2Error => "DATA_LAKE_STORAGE_GEN2_ERROR"
    case FilePermissionError => "FILE_PERMISSION_ERROR"
    case GeneralError => "GENERAL_ERROR"
    case TimeoutError => "TIMEOUT_ERROR"
    case IoException => "IO_EXCEPTION"
    case NoSuchAlgorithm => "No_SUCH_ALGORITHM"
  }

  const MessagePrefix: string := "MS_AZURE_DATALAKE_GEN2:"

  /** `getErrorCode` of a declared entry: "700701" to "700709" in declaration order. */
  function DeclaredCode(e: Error): (code: string)
    requires Declared(e)
    ensures code == "70070" + [('1' as int + Ordinal(e)) as char]
  {
    match e
    case ConnectionError => "700701"
    case InvalidConfiguration => "700702"
    case MissingParameters => "700703"
    case AuthenticationError => "700704"
    case FileAlreadyExistsError => "700705"
    case FileIoError => "700706"
    case DataLakeStorageGen2Error => "700707"
    case FilePermissionError => "700708"
    case GeneralError => "700709"
  }

  /** `getErrorMessage` of a declared entry: the prefix followed by the entry's own name. */
  function DeclaredMessage(e: Error): (message: string)
    requires Declared(e)
    ensures message == MessagePrefix + Name(e)
  {
    match e
    case ConnectionError => MessagePrefix + "CONNECTION_ERROR"
    case InvalidConfiguration => MessagePrefix + "INVALID_CONFIGURATION"
    case MissingParameters => MessagePrefix + "MISSING_PARAMETERS"
    case AuthenticationError => MessagePrefix + "AUTHENTICATION_ERROR"
    case FileAlreadyExistsError => MessagePrefix + "FILE_ALREADY_EXISTS_ERROR"
    case FileIoError => MessagePrefix + "FILE_IO_ERROR"
    case DataLakeStorageGen2Error => MessagePrefix + "DATA_LAKE_STORAGE_GEN2_ERROR"
    case FilePermissionError => MessagePrefix + "FILE_PERMISSION_ERROR"
    case GeneralError => MessagePrefix + "GENERAL_ERROR"
  }

  /** The code of any entry; the undeclared ones take theirs from `u`. */
  function Code(e: Error, u: Undeclared): (code: string)
    ensures Declared(e) ==> code == DeclaredCode(e)
    ensures e.TimeoutError? ==> code == u.timeoutCode
    ensures e.IoException? ==> code == u.ioCode
    ensures e.NoSuchAlgorithm? ==> code == u.noSuchAlgorithmCode
  {
    match e
    case TimeoutError => u.timeoutCode
    case IoException => u.ioCode
    case NoSuchAlgorithm => u.noSuchAlgorithmCode
    case _ => DeclaredCode(e)
  }

  /** The message of any entry; the undeclared ones take theirs from `u`. */
  function Message(e: Error, u: Undeclared): (message: string)
    ensures Declared(e) ==> message == DeclaredMessage(e)
    ensures e.TimeoutError? ==> message == u.timeoutMessage
    ensures e.IoException? ==> message == u.ioMessage
    ensures e.NoSuchAlgorithm? ==> message == u.noSuchAlgorithmMessage
  {
    match e
    case TimeoutError => u.timeoutMessage
    case IoException => u.ioMessage
    case NoSuchAlgorithm => u.noSuchAlgorithmMessage
    case _ => DeclaredMessage(e)
  }

  /** No two declared entries share a code. */
  lemma DeclaredCodesDistinct(e1: Error, e2: Error)
    requires Declared(e1) && Declared(e2) && e1 != e2
    ensures DeclaredCode(e1) != DeclaredCode(e2)
  {
    assert DeclaredCode(e1)[5] != DeclaredCode(e2)[5];
  }

  /** No two declared entries share a message. */
  lemma DeclaredMessagesDistinct(e1: Error, e2: Error)
    requires Declared(e1) && Declared(e2) && e1 != e2
    ensures DeclaredMessage(e1) != DeclaredMessage(e2)
  {
    // The nine names already differ in their length or their first letter.
    assert |Name(e1)| != |Name(e2)| || Name(e1)[0] != Name(e2)[0];
    assert DeclaredMessage(e1)[|MessagePrefix|..] == Name(e1);
    assert DeclaredMessage(e2)[|MessagePrefix|..] == Name(e2);
  }

  /** The declared table has exactly nine entries, one per ordinal. */
  lemma DeclaredTableHasNineEntries()
    ensures |set e: Error | Declared(e)| == 9
  {
    var all := {ConnectionError, InvalidConfiguration, MissingParameters, AuthenticationError,
                FileAlreadyExistsError, FileIoError, DataLakeStorageGen2Error, FilePermissionError,
                GeneralError};
    assert (set e: Error | Declared(e)) == all;
  }

  // ---------------------------------------------------------------------------
  // Exceptions and Java's catch semantics
  // ---------------------------------------------------------------------------

  /** The exceptions the SDK, the platform and the connector's own code can throw. */
  datatype Thrown =
    | DataLakeStorage           // DataLakeStorageException, unchecked
    | Connect                   // ConnectException, checked
    | InvalidConfigurationEx    // InvalidConfigurationException, a ConnectException
    | NoSuchAlgorithmEx         // NoSuchAlgorithmException, checked
    | IO                        // IOException, checked
    | UncheckedIO               // UncheckedIOException, unchecked
    | NullPointer               // NullPointerException, unchecked
    | DateTimeParse             // DateTimeParseException, unchecked
    | OtherUnchecked            // any other RuntimeException
    | OtherChecked              // any other checked Exception

  /** The classes a catch clause names. */
  datatype ExceptionClass =
    | DataLakeStorageException
    | ConnectException
    | NoSuchAlgorithmException
    | IOException
    | UncheckedIOException
    | RuntimeException
    | Exception

  /** Whether an exception is unchecked (a RuntimeException). */
  predicate IsUnchecked(t: Thrown) {
    t.DataLakeStorage? || t.UncheckedIO? || t.NullPointer? || t.DateTimeParse? || t.OtherUnchecked?
  }

  /** `t instanceof cls` over the Java class hierarchy. */
  predicate InstanceOf(t: Thrown, cls: ExceptionClass) {
    match cls
    case DataLakeStorageException => t.DataLakeStorage?
    case ConnectException => t.Connect? || t.InvalidConfigurationEx?
    case NoSuchAlgorithmException => t.NoSuchAlgorithmEx?
    case IOException => t.IO?
    case UncheckedIOException => t.UncheckedIO?
    case RuntimeException => IsUnchecked(t)
    case Exception => true
  }

  /** One `catch (cls e) { handleConnectorException(error, ...) }` clause. */
  datatype CatchClause = CatchClause(cls: ExceptionClass, error: Error)

  /**
   * The error a sequence of catch clauses hands to the handler: the first
   * clause whose class the exception is an instance of; none when no clause
   * matches and the exception propagates.
   */
  function FirstCatch(clauses: seq<CatchClause>, t: Thrown): (r: Option<Error>)
    ensures r.None? <==> forall i :: 0 <= i < |clauses| ==> !InstanceOf(t, clauses[i].cls)
  {
    if clauses == [] then None
    else if InstanceOf(t, clauses[0].cls) then Some(clauses[0].error)
    else
      var r := FirstCatch(clauses[1..], t);
      assert forall i :: 1 <= i < |clauses| ==> clauses[i] == clauses[1..][i - 1];
      r
  }

  /** The error chosen is that of a matching clause, and no earlier clause matches. */
  lemma {:induction false} FirstCatchIsFirstMatch(clauses: seq<CatchClause>, t: Thrown)
    requires FirstCatch(clauses, t).Some?
    ensures exists i :: 0 <= i < |clauses| && InstanceOf(t, clauses[i].cls) && clauses[i].error == FirstCatch(clauses, t).value
                        && forall j :: 0 <= j < i ==> !InstanceOf(t, clauses[j].cls)
  {
    if !InstanceOf(t, clauses[0].cls) {
      FirstCatchIsFirstMatch(clauses[1..], t);
      var i :| 0 <= i < |clauses[1..]| && InstanceOf(t, clauses[1..][i].cls) && clauses[1..][i].error == FirstCatch(clauses, t).value
               && forall j :: 0 <= j < i ==> !InstanceOf(t, clauses[1..][j].cls);
      assert clauses[i + 1] == clauses[1..][i];
      assert forall j :: 1 <= j < i + 1 ==> clauses[j] == clauses[1..][j - 1];
    }
  }
}
