# cmd-args in Dafny

A model of the argument kinds of the header-only C++ library `cmd-args`
(namespace `CmdArgs`, file `src/cmd-args.hpp`). A command-line argument
holds a value and five status flags: `isDefined_`, `wasSet_`, `failbit`,
`noParameter` and `invalidParameter`. Its `parseArg` takes one token,
meant to be the token after the argument's name. The header has no caller
of `parseArg`. The token counts as absent when it is empty or starts with
`-`. Otherwise it is converted to the argument's type.

- `conversion.dfy` (module `Conversion`) models the conversion helpers:
  `lowerString`, the `bool` specialisation of `stringToType` (accepts
  "1", "0", and "true"/"false" in any letter case) and the `std::string`
  specialisation (identity). A failed conversion, which the C++ code
  throws as `std::invalid_argument`, is `None`.
- `arguments.dfy` (module `Arguments`) models the four argument kinds
  `ValueArg`, `DefaultedArg`, `ImplicitArg` and `FlagArg` as classes.
  Each class has the base class's fields and a constructor. Its
  `ParseArg` method updates those fields in place.
  - `Status` is a snapshot of the fields.
  - For each kind, a function (`ValueParse`, `DefaultedParse`,
    `ImplicitParse`, `FlagParse`) gives the snapshot after one
    `parseArg`.
  - Each method is proved to match its function. Each method also states
    its new state outright for every outcome. For `ValueArg`,
    `DefaultedArg` and `ImplicitArg` there are three outcomes: the token is
    absent, it converts, or it does not convert. `FlagArg` has a single
    outcome, because it ignores the token.
  - Each function is proved to keep the kind's invariant. It is also
    proved never to lower a raised flag.

The generic `stringToType<T>` belongs to the template argument `T`.
Each generic class therefore takes it as a constant field `conv: string
-> Option<T>`. A `ValueArg<bool>` is built with `Conversion.StringToBool`
and a `ValueArg<std::string>` with `Conversion.StringToString`.

Some facts about the header that shape the model:
- There are four kinds. `DefaultedArg` is a kind of its own, and
  `ValueArg` takes no default.
- Errors raise flags (`failbit` plus `noParameter` or `invalidParameter`).
  `parseArg` throws nothing.
- `ImplicitArg` starts undefined. Its single stored value is the one it
  takes when named without a value. It has no separate value for an
  argument that is never named.
- The registry `ArgParser` is only an empty map declaration. The header
  has no registration, no parse loop and no help renderer.

## Model

| member | source | states |
|---|---|---|
| `Conversion.LowerChar` | src/cmd-args.hpp:11 | The result is never an upper-case letter. A-Z map to the matching a-z letter. Every other character is kept. |
| `Conversion.LowerString` | src/cmd-args.hpp:8-13 | The copy has the input's length. Each position is the lower-cased input character at that position, so no upper-case letter is left. |
| `Conversion.LowerStringIdempotent` | src/cmd-args.hpp:8-13 | Lower-casing twice equals lower-casing once. |
| `Conversion.StringToBool` | src/cmd-args.hpp:24-29 | Yields true exactly for "1" or any letter-case spelling of "true". Yields false exactly for "0" or any spelling of "false". Fails on every other token. Both directions are proved. |
| `Conversion.StringToBoolIgnoresCase` | src/cmd-args.hpp:26-27 | Two tokens that differ only in letter case give the same outcome. |
| `Conversion.StringToString` | src/cmd-args.hpp:30-33 | Always succeeds and returns its input unchanged. |
| `Arguments.FirstChar` | src/cmd-args.hpp:74 | `arg[0]` is the first character of a non-empty token and '\0' for the empty token. |
| `Arguments.Absent` | src/cmd-args.hpp:74 | A token is absent exactly when it is empty or starts with '-'. The same test appears at lines 74, 105 and 130. A token that starts with '-', such as "-5", never reaches the conversion. |
| `Arguments.ValueParse` | src/cmd-args.hpp:73-90 | Keeps `failbit == (noParameter \|\| invalidParameter)` and `wasSet ==> isDefined`. Never lowers a flag. Fails exactly when the token is absent or does not convert. Reports a missing value exactly on an absent token. The value changes only to the converted token, with `wasSet` raised. |
| `Arguments.ValueArg.constructor` | src/cmd-args.hpp:42-70 | Stores the names and description (line 42). All five flags start false (lines 56-60). The value is left unconstrained (line 70): it is indeterminate for a scalar `T` and default-constructed for a class type. |
| `Arguments.ValueArg.ParseArg` | src/cmd-args.hpp:73-90 | Absent token: raises `failbit` and `noParameter` only. Unconvertible token: raises `failbit` and `invalidParameter` only, and keeps the value. Convertible token: stores the converted value and raises `wasSet` and `isDefined` only. Equals `ValueParse` and keeps the invariant. |
| `Arguments.DefaultedParse` | src/cmd-args.hpp:104-115 | Keeps the invariant plus "always defined, never a missing-value error". Never lowers a flag. An absent token changes nothing. Fails exactly on a present token that does not convert. The value changes only to the converted token. |
| `Arguments.DefaultedArg.constructor` | src/cmd-args.hpp:42-101 | Stores the names and description (line 42). The value is the default and the argument is defined (lines 99-100). Every other flag is false (lines 57-60). |
| `Arguments.DefaultedArg.ParseArg` | src/cmd-args.hpp:104-115 | Absent token: no field changes. Unconvertible token: raises `failbit` and `invalidParameter` only. Convertible token: stores the value and raises `wasSet` only. Equals `DefaultedParse`. |
| `Arguments.ImplicitParse` | src/cmd-args.hpp:129-144 | Keeps the invariant plus "never a missing-value error". Never lowers a flag. Fails exactly on a present token that does not convert. Defined afterwards exactly when it was defined before, or the token is absent, or the token converts. The new value is the old one, the stored value, or the converted token. |
| `Arguments.ImplicitArg.constructor` | src/cmd-args.hpp:42-126 | Stores the names and description (line 42). Stores the value to use when named without a value. Starts undefined with every flag false (lines 56-60). The value is left unconstrained. |
| `Arguments.ImplicitArg.ParseArg` | src/cmd-args.hpp:129-144 | Absent token: takes the stored value and raises `isDefined` only, leaving `wasSet` as it was. Unconvertible token: raises `failbit` and `invalidParameter` only. Convertible token: stores the value and raises `isDefined` and `wasSet`. Equals `ImplicitParse`. |
| `Arguments.FlagParse` | src/cmd-args.hpp:159-162 | Keeps the invariant plus "always defined, never failed, value equals wasSet". Never lowers a flag. Afterwards the value and `wasSet` are true, and nothing else changed. |
| `Arguments.FlagParseIdempotent` | src/cmd-args.hpp:159-162 | The token is ignored, and naming a flag again changes nothing. |
| `Arguments.FlagArg.constructor` | src/cmd-args.hpp:42-156 | Stores the names and description (line 42). The value is false and the argument is defined (lines 154-155). Every other flag is false (lines 57-60). |
| `Arguments.FlagArg.ParseArg` | src/cmd-args.hpp:159-162 | Sets the value and `wasSet` to true and changes nothing else. Equals `FlagParse`. |

## Left out

- The generic `stringToType<T>` (src/cmd-args.hpp:15-21) relies on stream extraction. It is a parameter `conv` of each generic class, with `None` for the throw. Its numeric and floating-point parsing is not modelled.
- The exception message text, including `typeid(...).name()`, is not modelled.
- `std::tolower` is modelled for the "C" locale only (A-Z). Other locales and negative `char` values are not modelled.
- The accessors `getData`, `isDefined`, `wasSet`, `fail`, `noParameterError` and `invalidParameterError` (src/cmd-args.hpp:43-48) only return fields. The model reads the fields directly.
- The base class `Argument<T>` and its undefined virtual `parseArg` (src/cmd-args.hpp:39-63) are not a class of their own. Its fields are repeated in each kind, and `Status` is their shared snapshot.
- `ArgParser` (src/cmd-args.hpp:165-168) declares only a map and has no behaviour to model.
- src/main.cpp is a demo that prints to standard output. It calls `add`, `parseCmd` and `value()`, which the header does not define.
