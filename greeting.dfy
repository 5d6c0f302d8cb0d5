/** financeMacroFactors.py: the package's greeting function. */
module Greeting {
  import opened Wrappers

  /** sayHello(name=None): "Hello World" without a name, "Hello <name>" with one. */
  function SayHello(name: Option<string> := None): (greeting: string)
    ensures "Hello " <= greeting
    ensures name.None? ==> greeting == "Hello World"
    ensures name.Some? ==> |greeting| == 6 + |name.value| && greeting[6..] == name.value
  {
    match name
    case None => "Hello World"
    case Some(n) => "Hello " + n
  }

  /** Different names give different greetings: the name can be read back. */
  lemma GreetingNamesTheCaller(a: string, b: string)
    ensures SayHello(Some(a)) == SayHello(Some(b)) <==> a == b
  {
    if SayHello(Some(a)) == SayHello(Some(b)) {
      assert a == SayHello(Some(a))[6..];
    }
  }

  /** Leaving the name out is the same as greeting "World". */
  lemma DefaultGreetsWorld()
    ensures SayHello() == SayHello(Some("World"))
  {
  }
}
