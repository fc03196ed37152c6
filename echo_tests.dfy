/**
 * The unit tests of the echo server, each stated as a lemma about the
 * handlers' model: the inputs the tests send and the outcomes they expect.
 */
module EchoTests {
  import opened Wrappers
  import opened Json
  import opened Protocol
  import opened Ascii
  import opened Echo

  /** The tool list has one entry, named "echo", with its fixed description. */
  lemma ListsTheEchoTool()
    ensures |ListTools().tools| == 1
    ensures ListTools().tools[0].name == "echo"
    ensures ListTools().tools[0].description == "Echo back input text"
  {
  }

  /** Echo without `uppercase` returns the text as it came. */
  lemma EchoesWithoutUppercase()
    ensures CallTool("echo", Some(JObject(map["text" := JString("Hello, World!")])))
         == Success(ToolResult([ContentItem("text", "Hello, World!")]))
  {
  }

  /** Echo with `uppercase: true` returns the upper-cased text. */
  lemma EchoesWithUppercase()
    ensures CallTool("echo", Some(JObject(map["text" := JString("Hello, World!"), "uppercase" := JBool(true)])))
         == Success(ToolResult([ContentItem("text", "HELLO, WORLD!")]))
  {
    var text := "Hello, World!";
    var r := CallTool("echo", Some(JObject(map["text" := JString(text), "uppercase" := JBool(true)])));
    HelloUpperCased();
    assert r.Success? && |r.value.content| == 1 && r.value.content[0] == ContentItem("text", "HELLO, WORLD!");
  }

  /**
   * The upper-case form of the test's literal, which EchoesWithUppercase needs.
   * The literal is bound to a variable first so that the verifier reasons from
   * ToUpperAscii's per-character contract instead of unfolding it on the literal.
   */
  lemma HelloUpperCased()
    ensures ToUpperAscii("Hello, World!") == "HELLO, WORLD!"
  {
    var s := "Hello, World!";
    var r := ToUpperAscii(s);
    assert r[0] == 'H' && r[1] == 'E' && r[2] == 'L' && r[3] == 'L' && r[4] == 'O' && r[5] == ',' && r[6] == ' ';
    assert r[7] == 'W' && r[8] == 'O' && r[9] == 'R' && r[10] == 'L' && r[11] == 'D' && r[12] == '!';
  }

  /** An explicit `uppercase: false` returns the text as it came. */
  lemma EchoesWithUppercaseFalse()
    ensures CallTool("echo", Some(JObject(map["text" := JString("Hello, World!"), "uppercase" := JBool(false)])))
         == Success(ToolResult([ContentItem("text", "Hello, World!")]))
  {
  }

  /** Arguments without `text` are rejected as invalid parameters. */
  lemma RejectsMissingText()
    ensures CallTool("echo", Some(JObject(map[]))).Failure?
    ensures CallTool("echo", Some(JObject(map[]))).error.code == InvalidParams
  {
  }

  /** An empty `text` is rejected as invalid parameters. */
  lemma RejectsEmptyText()
    ensures CallTool("echo", Some(JObject(map["text" := JString("")]))).Failure?
    ensures CallTool("echo", Some(JObject(map["text" := JString("")]))).error.code == InvalidParams
  {
  }

  /** A tool name the server does not know is rejected as method-not-found. */
  lemma RejectsUnknownTool()
    ensures CallTool("unknown-tool", Some(JObject(map[]))).Failure?
    ensures CallTool("unknown-tool", Some(JObject(map[]))).error.code == MethodNotFound
  {
  }
}
