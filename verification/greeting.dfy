/** The greeting of src/aws_adfs/main.py. */
module Greeting {
  import opened Wrappers

  const Prefix: string := "Hello, "

  /** Python's `hello(name=None)`: greets `name`, or the world when no name is given. */
  function Hello(name: Option<string> := None): (r: string)
    ensures Prefix <= r && r[|r| - 1] == '!'
    ensures |r| == |Prefix| + |name.GetOr("World")| + 1
    ensures name.None? ==> r == "Hello, World!"
  {
    Prefix + name.GetOr("World") + "!"
  }

  /** The name a greeting greets: what lies between the prefix and the final `!`. */
  function GreetedName(greeting: string): (name: Option<string>)
    ensures name.Some? ==> |greeting| == |Prefix| + |name.value| + 1
  {
    if Prefix <= greeting && |greeting| > |Prefix| && greeting[|greeting| - 1] == '!'
    then Some(greeting[|Prefix|..|greeting| - 1])
    else None
  }

  /** Every greeting gives back the name it greets, so different names get different greetings. */
  lemma GreetedNameOfHello(name: Option<string>)
    ensures GreetedName(Hello(name)) == Some(name.GetOr("World"))
  {
    var n := name.GetOr("World");
    var r := Prefix + n + "!";
    assert r[|Prefix|..|r| - 1] == n;
  }

  lemma HelloInjective(a: string, b: string)
    requires Hello(Some(a)) == Hello(Some(b))
    ensures a == b
  {
    GreetedNameOfHello(Some(a));
    GreetedNameOfHello(Some(b));
  }
}
