// Model of demos/hello/hello.go: a language-to-prefix switch and the
// greeting built from it.
module Hello {

  const Spanish: string := "Spanish"
  const French: string := "French"
  const HelloPrefix: string := "Hello, "
  const SpanishHelloPrefix: string := "Hola, "
  const FrenchHelloPrefix: string := "Bonjour, "

  /** `createGreetingPrefix`: exact match on the language name, English otherwise. */
  function GreetingPrefix(language: string): (prefix: string)
    ensures language == Spanish <==> prefix == SpanishHelloPrefix
    ensures language == French <==> prefix == FrenchHelloPrefix
    ensures language != Spanish && language != French <==> prefix == HelloPrefix
  {
    match language
    case "Spanish" => SpanishHelloPrefix
    case "French" => FrenchHelloPrefix
    case _ => HelloPrefix
  }

  /** `Hello`: an empty name defaults to "world". The greeting is the
      language's prefix followed by something non-empty. */
  function Hello(language: string, name: string): (greeting: string)
    ensures |greeting| > |GreetingPrefix(language)|
    ensures greeting[..|GreetingPrefix(language)|] == GreetingPrefix(language)
  {
    GreetingPrefix(language) + (if name == "" then "world" else name)
  }

  /** Every greeting starts with the language's prefix, and what follows it is
      the name, or "world" for an empty name. */
  lemma HelloShape(language: string, name: string)
    ensures var p := GreetingPrefix(language);
      && |Hello(language, name)| > |p|
      && Hello(language, name)[..|p|] == p
      && Hello(language, name)[|p|..] == if name == "" then "world" else name
  {
  }

  /** The name can be recovered from a greeting: two non-empty names give the
      same greeting in one language only when they are equal. */
  lemma HelloInjective(language: string, n1: string, n2: string)
    requires n1 != "" && n2 != ""
    requires Hello(language, n1) == Hello(language, n2)
    ensures n1 == n2
  {
  }

  /** The expectations of demos/hello/hello_test.go. */
  lemma HelloExamples()
    ensures Hello("", "") == "Hello, world"
    ensures Hello("", "Chris") == "Hello, Chris"
    ensures Hello(Spanish, "Elodie") == "Hola, Elodie"
    ensures Hello(French, "Lauren") == "Bonjour, Lauren"
  {
  }
}
