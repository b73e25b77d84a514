/** A simplified reading of `String.format(template, args...)` that knows
    only the `%s` conversion: each `%s`, left to right, takes the next
    argument's text; any other character is copied. Arguments left over are
    ignored, and running out of arguments is an error, as with the Java
    formatter. */
module Format {
  import opened Wrappers

  datatype FormatError = MissingFormatArgument

  predicate PlaceholderAt(template: string, i: int)
  {
    0 <= i && i + 1 < |template| && template[i] == '%' && template[i + 1] == 's'
  }

  /** Number of `%s` conversions read left to right. */
  function Placeholders(template: string): nat
  {
    if |template| == 0 then 0
    else if PlaceholderAt(template, 0) then 1 + Placeholders(template[2..])
    else Placeholders(template[1..])
  }

  /** The formatted text. It fails exactly when the template asks for
      more arguments than it is given, and a template without `%s` is its
      own output, whatever the arguments. */
  function FormatS(template: string, args: seq<string>): (r: Result<string, FormatError>)
    ensures r.Ok? <==> Placeholders(template) <= |args|
    ensures Placeholders(template) == 0 ==> r == Ok(template)
    decreases |template|
  {
    if |template| == 0 then Ok("")
    else if PlaceholderAt(template, 0) then
      if |args| == 0 then Err(MissingFormatArgument)
      else
        match FormatS(template[2..], args[1..])
        case Ok(rest) => Ok(args[0] + rest)
        case Err(e) => Err(e)
    else
      assert [template[0]] + template[1..] == template;
      match FormatS(template[1..], args)
      case Ok(rest) => Ok([template[0]] + rest)
      case Err(e) => Err(e)
  }

  /** A literal prefix without `%` is copied in front of the rest's output. */
  lemma {:induction false} FormatLiteralPrefix(lit: string, rest: string, args: seq<string>)
    requires forall i :: 0 <= i < |lit| ==> lit[i] != '%'
    ensures FormatS(lit + rest, args) == (match FormatS(rest, args) case Ok(s) => Ok(lit + s) case Err(e) => Err(e))
    decreases |lit|
  {
    if |lit| > 0 {
      assert (lit + rest)[1..] == lit[1..] + rest;
      assert !PlaceholderAt(lit + rest, 0);
      FormatLiteralPrefix(lit[1..], rest, args);
      match FormatS(rest, args)
      case Ok(out) =>
        assert [lit[0]] + (lit[1..] + out) == lit + out;
      case Err(_) =>
    } else {
      assert lit + rest == rest;
      match FormatS(rest, args)
      case Ok(out) =>
        assert lit + out == out;
      case Err(_) =>
    }
  }

  /** A leading `%s` takes the first argument. */
  lemma FormatPlaceholderPrefix(rest: string, arg: string, args: seq<string>)
    ensures FormatS("%s" + rest, [arg] + args) == (match FormatS(rest, args) case Ok(s) => Ok(arg + s) case Err(e) => Err(e))
  {
    assert ("%s" + rest)[2..] == rest;
    assert ([arg] + args)[1..] == args;
  }
}
