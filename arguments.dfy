/** The argument kinds of the CmdArgs namespace. Each kind keeps the state
    of the C++ base class `Argument<T>` (the current value and five status
    flags) and updates it in place from one token, meant to be the token
    that follows the argument's name (the header has no caller). `Status` is a snapshot of that state; the
    `...Parse` functions say what one `parseArg` does to a snapshot, and
    each class method is proved to do exactly that to its fields. */
module Arguments {
  import opened Conversion

  /** The state every argument carries: the value, whether it holds a
      meaningful value (from the command line or a default), whether the
      command line supplied it, and the error flags. */
  datatype Status<T> = Status(
    data: T,
    isDefined: bool,
    wasSet: bool,
    failbit: bool,
    noParameter: bool,
    invalidParameter: bool)

  /** Character 0 of a `std::string`: an empty string still holds its
      terminating '\0' there. */
  function FirstChar(arg: string): (c: char)
    ensures arg != [] ==> c == arg[0]
    ensures arg == [] ==> c == '\0'
  {
    if arg == [] then '\0' else arg[0]
  }

  /** The token after the name carries no value: it is empty, or it begins
      with a dash and so is taken for the next option. A token such as
      "-5" is therefore absent and never reaches the conversion. */
  predicate Absent(arg: string)
    ensures Absent(arg) <==> |arg| == 0 || arg[0] == '-'
  {
    FirstChar(arg) == '-' || arg == ""
  }

  /** What every kind keeps true: failbit is raised exactly when one of the
      two errors is, and a value given on the command line is defined. */
  predicate Consistent<T>(s: Status<T>) {
    && s.failbit == (s.noParameter || s.invalidParameter)
    && (s.wasSet ==> s.isDefined)
  }

  /** Every flag raised in `before` is still raised in `after`. */
  predicate FlagsKept<T>(before: Status<T>, after: Status<T>) {
    && (before.isDefined ==> after.isDefined)
    && (before.wasSet ==> after.wasSet)
    && (before.failbit ==> after.failbit)
    && (before.noParameter ==> after.noParameter)
    && (before.invalidParameter ==> after.invalidParameter)
  }

  /** The state of a `ValueArg` after `parseArg(arg)`. */
  function ValueParse<T>(s: Status<T>, arg: string, conv: string -> Option<T>): (r: Status<T>)
    ensures Consistent(s) ==> Consistent(r)
    ensures FlagsKept(s, r)
    ensures r.failbit <==> s.failbit || Absent(arg) || conv(arg).None?
    ensures r.noParameter <==> s.noParameter || Absent(arg)
    ensures r.data == s.data || (r.wasSet && conv(arg) == Some(r.data))
  {
    if Absent(arg) then
      s.(failbit := true, noParameter := true)
    else
      match conv(arg)
      case None => s.(failbit := true, invalidParameter := true)
      case Some(v) => s.(data := v, wasSet := true, isDefined := true)
  }

  /** What a `DefaultedArg` keeps true besides `Consistent`: it always holds
      a value and never reports a missing one. */
  predicate DefaultedInvariant<T>(s: Status<T>) {
    Consistent(s) && s.isDefined && !s.noParameter
  }

  /** The state of a `DefaultedArg` after `parseArg(arg)`. */
  function DefaultedParse<T>(s: Status<T>, arg: string, conv: string -> Option<T>): (r: Status<T>)
    ensures DefaultedInvariant(s) ==> DefaultedInvariant(r)
    ensures FlagsKept(s, r)
    ensures Absent(arg) ==> r == s
    ensures r.isDefined == s.isDefined && r.noParameter == s.noParameter
    ensures r.failbit <==> s.failbit || (!Absent(arg) && conv(arg).None?)
    ensures r.data == s.data || (r.wasSet && conv(arg) == Some(r.data))
  {
    if Absent(arg) then
      s
    else
      match conv(arg)
      case None => s.(failbit := true, invalidParameter := true)
      case Some(v) => s.(data := v, wasSet := true)
  }

  /** What an `ImplicitArg` keeps true besides `Consistent`: it never
      reports a missing value. */
  predicate ImplicitInvariant<T>(s: Status<T>) {
    Consistent(s) && !s.noParameter
  }

  /** The state of an `ImplicitArg` whose stored value is `fallback` after
      `parseArg(arg)`. */
  function ImplicitParse<T>(s: Status<T>, fallback: T, arg: string, conv: string -> Option<T>): (r: Status<T>)
    ensures ImplicitInvariant(s) ==> ImplicitInvariant(r)
    ensures FlagsKept(s, r)
    ensures r.noParameter == s.noParameter
    ensures r.failbit <==> s.failbit || (!Absent(arg) && conv(arg).None?)
    ensures r.isDefined <==> s.isDefined || Absent(arg) || conv(arg).Some?
    ensures r.data == s.data || r.data == fallback || (r.wasSet && conv(arg) == Some(r.data))
  {
    if Absent(arg) then
      s.(data := fallback, isDefined := true)
    else
      match conv(arg)
      case None => s.(failbit := true, invalidParameter := true)
      case Some(v) => s.(data := v, isDefined := true, wasSet := true)
  }

  /** What a `FlagArg` keeps true besides `Consistent`: it is always
      defined, never fails, and is true exactly when it was named. */
  predicate FlagInvariant(s: Status<bool>) {
    Consistent(s) && s.isDefined && !s.failbit && s.data == s.wasSet
  }

  /** The state of a `FlagArg` after `parseArg(arg)`. */
  function FlagParse(s: Status<bool>, arg: string): (r: Status<bool>)
    ensures FlagInvariant(s) ==> FlagInvariant(r)
    ensures FlagsKept(s, r)
    ensures r.data && r.wasSet
    ensures r.(data := s.data, wasSet := s.wasSet) == s
  {
    s.(data := true, wasSet := true)
  }

  /** A flag does not look at the token after it, and naming it a second
      time changes nothing. */
  lemma FlagParseIdempotent(s: Status<bool>, arg: string, next: string)
    ensures FlagParse(s, arg) == FlagParse(s, next)
    ensures FlagParse(FlagParse(s, arg), next) == FlagParse(s, arg)
  {
  }

  /** An argument that must be given a value whenever it is named; until
      then its value is undefined. */
  class ValueArg<T(0)> {
    const shortName: string
    const longName: string
    const description: string
    /** The conversion `stringToType<T>` for this argument's type. */
    const conv: string -> Option<T>

    var data: T
    var isDefined: bool
    var wasSet: bool
    var failbit: bool
    var noParameter: bool
    var invalidParameter: bool

    function State(): Status<T>
      reads this
    {
      Status(data, isDefined, wasSet, failbit, noParameter, invalidParameter)
    }

    ghost predicate Valid()
      reads this
    {
      Consistent(State())
    }

    /** `data` is left unconstrained: the C++ constructor leaves it
        indeterminate for a scalar `T` and default-constructed for a class
        type. */
    constructor (shortName: string, longName: string, description: string, conv: string -> Option<T>)
      ensures this.shortName == shortName && this.longName == longName
      ensures this.description == description && this.conv == conv
      ensures !isDefined && !wasSet && !failbit && !noParameter && !invalidParameter
      ensures Valid()
    {
      this.shortName := shortName;
      this.longName := longName;
      this.description := description;
      this.conv := conv;
      isDefined, wasSet := false, false;
      failbit, noParameter, invalidParameter := false, false, false;
    }

    /** The first ensures is the whole step; the case-by-case ones that
        follow spell it out for the reader. */
    method ParseArg(arg: string)
      modifies this
      ensures State() == ValueParse(old(State()), arg, conv)
      ensures Absent(arg) ==> State() == old(State()).(failbit := true, noParameter := true)
      ensures !Absent(arg) && conv(arg).None? ==>
        State() == old(State()).(failbit := true, invalidParameter := true)
      ensures !Absent(arg) && conv(arg).Some? ==>
        State() == old(State()).(data := conv(arg).value, wasSet := true, isDefined := true)
      ensures old(Valid()) ==> Valid()
    {
      if FirstChar(arg) == '-' || arg == "" {
        failbit := true;
        noParameter := true;
        return;
      }
      match conv(arg) {
        case None =>
          failbit := true;
          invalidParameter := true;
          return;
        case Some(v) =>
          data := v;
      }
      wasSet := true;
      isDefined := true;
    }
  }

  /** An argument that holds a default value until the command line gives
      it another one. */
  class DefaultedArg<T> {
    const shortName: string
    const longName: string
    const description: string
    const conv: string -> Option<T>

    var data: T
    var isDefined: bool
    var wasSet: bool
    var failbit: bool
    var noParameter: bool
    var invalidParameter: bool

    function State(): Status<T>
      reads this
    {
      Status(data, isDefined, wasSet, failbit, noParameter, invalidParameter)
    }

    ghost predicate Valid()
      reads this
    {
      DefaultedInvariant(State())
    }

    constructor (shortName: string, longName: string, description: string, defaultValue: T,
                 conv: string -> Option<T>)
      ensures this.shortName == shortName && this.longName == longName
      ensures this.description == description && this.conv == conv
      ensures data == defaultValue && isDefined
      ensures !wasSet && !failbit && !noParameter && !invalidParameter
      ensures Valid()
    {
      this.shortName := shortName;
      this.longName := longName;
      this.description := description;
      this.conv := conv;
      data := defaultValue;
      isDefined := true;
      wasSet := false;
      failbit, noParameter, invalidParameter := false, false, false;
    }

    /** The first ensures is the whole step; the case-by-case ones that
        follow spell it out for the reader. */
    method ParseArg(arg: string)
      modifies this
      ensures State() == DefaultedParse(old(State()), arg, conv)
      ensures Absent(arg) ==> State() == old(State())
      ensures !Absent(arg) && conv(arg).None? ==>
        State() == old(State()).(failbit := true, invalidParameter := true)
      ensures !Absent(arg) && conv(arg).Some? ==>
        State() == old(State()).(data := conv(arg).value, wasSet := true)
      ensures old(Valid()) ==> Valid()
    {
      if FirstChar(arg) == '-' || arg == "" {
        return;
      }
      match conv(arg) {
        case None =>
          failbit := true;
          invalidParameter := true;
          return;
        case Some(v) =>
          data := v;
      }
      wasSet := true;
    }
  }

  /** An argument with three observable states: not named (undefined),
      named without a value (it takes the stored value `defaultValue`), and
      named with a value. */
  class ImplicitArg<T(0)> {
    const shortName: string
    const longName: string
    const description: string
    const conv: string -> Option<T>
    /** The value taken when the argument is named without a value. */
    const defaultValue: T

    var data: T
    var isDefined: bool
    var wasSet: bool
    var failbit: bool
    var noParameter: bool
    var invalidParameter: bool

    function State(): Status<T>
      reads this
    {
      Status(data, isDefined, wasSet, failbit, noParameter, invalidParameter)
    }

    ghost predicate Valid()
      reads this
    {
      ImplicitInvariant(State())
    }

    /** `data` is left unconstrained, as for `ValueArg`, and the argument
        starts undefined. */
    constructor (shortName: string, longName: string, description: string, dv: T,
                 conv: string -> Option<T>)
      ensures this.shortName == shortName && this.longName == longName
      ensures this.description == description && this.conv == conv
      ensures defaultValue == dv
      ensures !isDefined && !wasSet && !failbit && !noParameter && !invalidParameter
      ensures Valid()
    {
      this.shortName := shortName;
      this.longName := longName;
      this.description := description;
      this.conv := conv;
      defaultValue := dv;
      isDefined, wasSet := false, false;
      failbit, noParameter, invalidParameter := false, false, false;
    }

    /** The first ensures is the whole step; the case-by-case ones that
        follow spell it out for the reader. */
    method ParseArg(arg: string)
      modifies this
      ensures State() == ImplicitParse(old(State()), defaultValue, arg, conv)
      ensures Absent(arg) ==> State() == old(State()).(data := defaultValue, isDefined := true)
      ensures !Absent(arg) && conv(arg).None? ==>
        State() == old(State()).(failbit := true, invalidParameter := true)
      ensures !Absent(arg) && conv(arg).Some? ==>
        State() == old(State()).(data := conv(arg).value, isDefined := true, wasSet := true)
      ensures old(Valid()) ==> Valid()
    {
      if FirstChar(arg) == '-' || arg == "" {
        data := defaultValue;
        isDefined := true;
        return;
      }
      match conv(arg) {
        case None =>
          failbit := true;
          invalidParameter := true;
          return;
        case Some(v) =>
          data := v;
      }
      isDefined := true;
      wasSet := true;
    }
  }

  /** A boolean argument that takes no value: false until named, true
      once named. */
  class FlagArg {
    const shortName: string
    const longName: string
    const description: string

    var data: bool
    var isDefined: bool
    var wasSet: bool
    var failbit: bool
    var noParameter: bool
    var invalidParameter: bool

    function State(): Status<bool>
      reads this
    {
      Status(data, isDefined, wasSet, failbit, noParameter, invalidParameter)
    }

    ghost predicate Valid()
      reads this
    {
      FlagInvariant(State())
    }

    constructor (shortName: string, longName: string, description: string)
      ensures this.shortName == shortName && this.longName == longName
      ensures this.description == description
      ensures !data && isDefined
      ensures !wasSet && !failbit && !noParameter && !invalidParameter
      ensures Valid()
    {
      this.shortName := shortName;
      this.longName := longName;
      this.description := description;
      data := false;
      isDefined := true;
      wasSet := false;
      failbit, noParameter, invalidParameter := false, false, false;
    }

    /** The first ensures is the whole step; the case-by-case ones that
        follow spell it out for the reader. */
    method ParseArg(arg: string)
      modifies this
      ensures State() == FlagParse(old(State()), arg)
      ensures State() == old(State()).(data := true, wasSet := true)
      ensures old(Valid()) ==> Valid()
    {
      data := true;
      wasSet := true;
    }
  }
}
