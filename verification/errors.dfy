/** The exception types that reach Migration.run(), and the way run()'s catch
    chain turns each of them into the MigrateException it records. */
module Errors {
  import opened Wrappers

  /** The MigrateException hierarchy. Every kind is a MigrateException:
      SkipException, UnsupportedClassException and ConnectException all extend
      it, which is why a SkipException that escapes the job loop is recorded
      like any other MigrateException. */
  datatype Kind = General | Skip | UnsupportedClass | Connect

  /** A MigrateException (or subclass) with its getMessage() text. */
  datatype MigrateError = MigrateError(kind: Kind, message: string)

  /** Anything a collaborator can throw into run(): a MigrateException, one of
      the three checked exceptions of the legacy server's API, or any other
      java.lang.Exception with its class name. A message of None is a null
      getMessage(). */
  datatype Raised =
    | Migrate(error: MigrateError)
    | Authorization(msg: Option<string>)
    | Persistence(msg: Option<string>)
    | StepConfig(msg: Option<string>)
    | Other(className: string, msg: Option<string>)
  {
    /** True for a SkipException, the only exception some handlers swallow. */
    predicate IsSkip() {
      Migrate? && error.kind == Skip
    }

    /** getMessage() of the thrown exception. */
    function Message(): Option<string> {
      if Migrate? then Some(error.message) else msg
    }
  }

  /** How Java's string concatenation renders a possibly-null string. */
  function Show(s: Option<string>): string {
    if s.Some? then s.value else "null"
  }

  predicate IsPrefix(p: string, s: string) {
    |p| <= |s| && s[..|p|] == p
  }

  /** The exception built by the two-argument constructor
      MigrateException(msg, cause), whose message is msg + ": " + the cause's
      message. */
  function Wrap(kind: Kind, msg: string, cause: Raised): (e: MigrateError)
    ensures e.kind == kind
    ensures IsPrefix(msg, e.message)
    ensures e.message[|msg|..] == ": " + Show(cause.Message())
  {
    MigrateError(kind, msg + ": " + Show(cause.Message()))
  }

  /** The error run() records for an exception that escapes its body: an
      authorization failure becomes a ConnectException, a persistence or
      step-configuration failure a plain MigrateException, a MigrateException
      of any kind is kept as it is, and anything else becomes a "General
      error" whose text is the message, or the class name when the message is
      null. */
  function Classify(t: Raised): (e: MigrateError)
    ensures t.Migrate? ==> e == t.error
    ensures e.kind == Connect <==>
              t.Authorization? || (t.Migrate? && t.error.kind == Connect)
    ensures e.kind == Skip <==> t.IsSkip()
    ensures e.kind == UnsupportedClass <==>
              t.Migrate? && t.error.kind == UnsupportedClass
    ensures t.Authorization? ==>
              IsPrefix("Authorization error from AHP: ", e.message)
    ensures t.Persistence? || t.StepConfig? ==>
              e.kind == General && IsPrefix("Persistence error from AHP: ", e.message)
    ensures t.Authorization? ==> e.message == "Authorization error from AHP: : " + Show(t.msg)
    ensures t.Persistence? || t.StepConfig? ==>
              e.message == "Persistence error from AHP: : " + Show(t.msg)
    ensures t.Other? && t.msg.Some? ==>
              e.kind == General &&
              e.message == "General error: " + t.msg.value + ": " + t.msg.value
    ensures t.Other? && t.msg.None? ==>
              e.kind == General &&
              e.message == "General Error: " + t.className + ": null"
  {
    match t
    case Authorization(_) => Wrap(Connect, "Authorization error from AHP: ", t)
    case Persistence(_) => Wrap(General, "Persistence error from AHP: ", t)
    case StepConfig(_) => Wrap(General, "Persistence error from AHP: ", t)
    case Migrate(e) => e
    case Other(c, m) =>
      if m.Some? then Wrap(General, "General error: " + m.value, t)
      else Wrap(General, "General Error: " + c, t)
  }
}
