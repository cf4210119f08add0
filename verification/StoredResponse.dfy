/** What the gateway stores of a response (`strip_execution_commands` in jobs.rs): everything but
    the commands of executions. */
module StoredResponse {
  import opened Wrappers

  datatype Json =
    | Null
    | Boolean(flag: bool)
    | Number(number: int)
    | String(text: string)
    | Array(items: seq<Json>)
    | Object(fields: map<string, Json>)
  {
    predicate Scalar() {
      !Array? && !Object?
    }
  }

  // `execution`: the value is the member of that name, and loses its command.
  function Stripped(v: Json, execution: bool): Json {
    match v
    case Array(items) => Array(seq(|items|, i requires 0 <= i < |items| => Stripped(items[i], false)))
    case Object(fields) =>
      Object(map name | name in fields && !(execution && name == "command")
                      :: Stripped(fields[name], name == "execution"))
    case _ => v
  }

  // `strip_execution_commands`.
  function Strip(v: Json): Json {
    Stripped(v, false)
  }

  datatype Key = Field(name: string) | Index(index: nat)

  // The value at a path.
  function Get(v: Json, path: seq<Key>): Option<Json>
    decreases |path|
  {
    if path == [] then Some(v)
    else
      match path[0]
      case Field(name) => if v.Object? && name in v.fields then Get(v.fields[name], path[1..]) else None
      case Index(index) => if v.Array? && index < |v.items| then Get(v.items[index], path[1..]) else None
  }

  // The path goes through the command of an execution.
  predicate Hidden(path: seq<Key>, execution: bool)
    decreases |path|
  {
    path != [] && ((execution && path[0] == Field("command")) || Hidden(path[1..], path[0] == Field("execution")))
  }

  // The path ends at a member called "execution".
  function AtExecution(path: seq<Key>, execution: bool): bool {
    if path == [] then execution else path[|path| - 1] == Field("execution")
  }

  lemma {:induction false} StrippedGet(v: Json, path: seq<Key>, execution: bool)
    ensures Get(Stripped(v, execution), path) ==
            if Hidden(path, execution) || Get(v, path).None? then None
            else Some(Stripped(Get(v, path).value, AtExecution(path, execution)))
    decreases |path|
  {
    if path != [] {
      var inner := path[0] == Field("execution");
      match path[0]
      case Field(name) =>
        if v.Object? && name in v.fields && !(execution && name == "command") {
          StrippedGet(v.fields[name], path[1..], inner);
        }
      case Index(index) =>
        if v.Array? && index < |v.items| {
          StrippedGet(v.items[index], path[1..], inner);
        }
    }
  }

  /** The stored response has a value at a path exactly when the response has one and the path does
      not go through the command of an execution; a scalar there is the same. */
  lemma StripKeepsTheRest(v: Json, path: seq<Key>)
    ensures Get(Strip(v), path).Some? <==> Get(v, path).Some? && !Hidden(path, false)
    ensures Get(v, path).Some? && Get(v, path).value.Scalar() && !Hidden(path, false) ==>
              Get(Strip(v), path) == Get(v, path)
  {
    StrippedGet(v, path, false);
  }

  lemma {:induction false} StrippedAgain(v: Json, execution: bool)
    ensures Stripped(Stripped(v, execution), execution) == Stripped(v, execution)
    decreases v
  {
    match v
    case Array(items) =>
      forall i | 0 <= i < |items|
        ensures Stripped(Stripped(items[i], false), false) == Stripped(items[i], false)
      {
        StrippedAgain(items[i], false);
      }
    case Object(fields) =>
      forall name | name in fields
        ensures Stripped(Stripped(fields[name], name == "execution"), name == "execution")
                == Stripped(fields[name], name == "execution")
      {
        StrippedAgain(fields[name], name == "execution");
      }
      assert Stripped(Stripped(v, execution), execution).fields == Stripped(v, execution).fields;
    case _ =>
  }

  /** Stripping what was stripped changes nothing. */
  lemma StripTwice(v: Json)
    ensures Strip(Strip(v)) == Strip(v)
  {
    StrippedAgain(v, false);
  }
}
