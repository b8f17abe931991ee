/**
 * The four transform policies of the Trusted Types test helper and the
 * `INPUTS`/`RESULTS` tables they are checked against.
 */
module TrustedTypesPolicies {
  import opened JsString

  // The `INPUTS` table: what every policy is called with.
  const InputHTML: string := "Hi, I want to be transformed!"
  const InputScript: string := "Hi, I want to be transformed!"
  const InputScriptURL: string := "http://this.is.a.scripturl.test/"
  const InputURL: string := "http://hello.i.am.an.url/"

  // The `RESULTS` table: what every policy must turn its input into.
  const ResultHTML: string := "Quack, I want to be a duck!"
  const ResultScript: string := "Meow, I want to be a cat!"
  const ResultScriptURL: string := "http://this.is.a.successful.test/"
  const ResultURL: string := "http://hooray.i.am.successfully.transformed/"

  // ---------------------------------------------------------------------
  // The transform policies
  // ---------------------------------------------------------------------

  /** `createHTMLJS`: "Hi" becomes "Quack", then "transformed" becomes "a duck". */
  function CreateHTML(html: string): string {
    ReplaceFirst(ReplaceFirst(html, "Hi", "Quack"), "transformed", "a duck")
  }

  /** `createScriptJS`: "Hi" becomes "Meow", then "transformed" becomes "a cat". */
  function CreateScript(script: string): string {
    ReplaceFirst(ReplaceFirst(script, "Hi", "Meow"), "transformed", "a cat")
  }

  /** `createScriptURLJS`: "scripturl" becomes "successful". */
  function CreateScriptURL(scriptURL: string): string {
    ReplaceFirst(scriptURL, "scripturl", "successful")
  }

  /** `createURLJS`: "hello" becomes "hooray", then "an.url" becomes "successfully.transformed". */
  function CreateURL(url: string): string {
    ReplaceFirst(ReplaceFirst(url, "hello", "hooray"), "an.url", "successfully.transformed")
  }

  // Each input split around the occurrence that its policy rewrites, and
  // each rewritten string split around the next occurrence.

  lemma HTMLStringsSplit1()
    ensures InputHTML == "" + "Hi" + ", I want to be transformed!"
  {
  }

  lemma HTMLStringsSplit2()
    ensures "" + "Quack" + ", I want to be transformed!" == "Quack, I want to be " + "transformed" + "!"
  {
  }

  lemma HTMLStringsSplit3()
    ensures "Quack, I want to be " + "a duck" + "!" == ResultHTML
  {
  }

  lemma ScriptStringsSplit1()
    ensures InputScript == "" + "Hi" + ", I want to be transformed!"
  {
  }

  lemma ScriptStringsSplit2()
    ensures "" + "Meow" + ", I want to be transformed!" == "Meow, I want to be " + "transformed" + "!"
  {
  }

  lemma ScriptStringsSplit3()
    ensures "Meow, I want to be " + "a cat" + "!" == ResultScript
  {
  }

  lemma ScriptURLStringsSplit1()
    ensures InputScriptURL == "http://this.is.a." + "scripturl" + ".test/"
  {
  }

  lemma ScriptURLStringsSplit2()
    ensures "http://this.is.a." + "successful" + ".test/" == ResultScriptURL
  {
  }

  lemma URLStringsSplit1()
    ensures InputURL == "http://" + "hello" + ".i.am.an.url/"
  {
  }

  lemma URLStringsSplit2()
    ensures "http://" + "hooray" + ".i.am.an.url/" == "http://hooray.i.am." + "an.url" + "/"
  {
  }

  lemma URLStringsSplit3()
    ensures "http://hooray.i.am." + "successfully.transformed" + "/" == ResultURL
  {
  }

  // Each replacement below is justified by a character of the pattern
  // that does not occur before the match: 'r' of "transformed", 'c' of
  // "scripturl", 'e' of "hello", 'n' of "an.url".

  lemma CreateHTMLMeetsResult()
    ensures CreateHTML(InputHTML) == ResultHTML
  {
    HTMLStringsSplit1();
    HTMLStringsSplit2();
    HTMLStringsSplit3();
    ReplaceFirstAfter("", "Hi", ", I want to be transformed!", "Quack", 0);
    ReplaceFirstAfter("Quack, I want to be ", "transformed", "!", "a duck", 1);
  }

  lemma CreateScriptMeetsResult()
    ensures CreateScript(InputScript) == ResultScript
  {
    ScriptStringsSplit1();
    ScriptStringsSplit2();
    ScriptStringsSplit3();
    ReplaceFirstAfter("", "Hi", ", I want to be transformed!", "Meow", 0);
    ReplaceFirstAfter("Meow, I want to be ", "transformed", "!", "a cat", 1);
  }

  lemma CreateScriptURLMeetsResult()
    ensures CreateScriptURL(InputScriptURL) == ResultScriptURL
  {
    ScriptURLStringsSplit1();
    ScriptURLStringsSplit2();
    ReplaceFirstAfter("http://this.is.a.", "scripturl", ".test/", "successful", 1);
  }

  /** The second replacement acts on the output of the first. */
  lemma CreateURLMeetsResult()
    ensures CreateURL(InputURL) == ResultURL
  {
    URLStringsSplit1();
    URLStringsSplit2();
    URLStringsSplit3();
    ReplaceFirstAfter("http://", "hello", ".i.am.an.url/", "hooray", 1);
    ReplaceFirstAfter("http://hooray.i.am.", "an.url", "/", "successfully.transformed", 1);
  }

  /** The text has no occurrence of `pat`. */
  ghost predicate Lacks(s: string, pat: string) {
    forall j :: !OccursAt(s, pat, j)
  }

  /** A string in which none of a policy's patterns occurs passes through that policy unchanged. */
  lemma PoliciesKeepTextWithoutPatterns(s: string)
    ensures Lacks(s, "Hi") && Lacks(s, "transformed") ==> CreateHTML(s) == s && CreateScript(s) == s
    ensures Lacks(s, "scripturl") ==> CreateScriptURL(s) == s
    ensures Lacks(s, "hello") && Lacks(s, "an.url") ==> CreateURL(s) == s
  {
    if Lacks(s, "Hi") && Lacks(s, "transformed") {
      ReplaceFirstAbsent(s, "Hi", "Quack");
      ReplaceFirstAbsent(s, "transformed", "a duck");
      ReplaceFirstAbsent(s, "Hi", "Meow");
      ReplaceFirstAbsent(s, "transformed", "a cat");
    }
    if Lacks(s, "scripturl") {
      ReplaceFirstAbsent(s, "scripturl", "successful");
    }
    if Lacks(s, "hello") && Lacks(s, "an.url") {
      ReplaceFirstAbsent(s, "hello", "hooray");
      ReplaceFirstAbsent(s, "an.url", "successfully.transformed");
    }
  }
}
