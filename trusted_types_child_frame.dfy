/**
 * The `srcdoc` document that `run_tests_in_child_frame` loads into the
 * child frame: `meta`, one tag per kept head script, then the harness
 * setup and the call of the tests.
 */
module TrustedTypesChildFrame {
  import opened JsString

  /** The head scripts whose `src` contains this are not copied into the child frame. */
  const ReportScriptName: string := "testharnessreport"

  /** The filter: `script.src.indexOf('testharnessreport') === -1`. */
  function KeepScript(src: string): (keep: bool)
    ensures keep <==> forall j :: !OccursAt(src, ReportScriptName, j)
  {
    IndexOf(src, ReportScriptName).None?
  }

  /** The `src` list after the filter, in document order. */
  function KeptScripts(srcs: seq<string>): seq<string> {
    if srcs == [] then []
    else (if KeepScript(srcs[0]) then [srcs[0]] else []) + KeptScripts(srcs[1..])
  }

  /** The tag appended for one kept script. */
  function ScriptTag(src: string): string {
    "<script src=\"" + src + "\"></sc" + "ript>"
  }

  /** The tags for a list of scripts, in list order. */
  function ScriptTags(srcs: seq<string>): string {
    if srcs == [] then "" else ScriptTags(srcs[..|srcs| - 1]) + ScriptTag(srcs[|srcs| - 1])
  }

  /** What is appended after the script tags. */
  function SrcdocTail(tests: string): string {
    "<body><script>" + "setup({output: false});" + ("(" + tests + ")()" + "</sc" + "ript>")
  }

  /** The whole `srcdoc`, with the head script `src` list and `tests.toString()` as parameters. */
  function ChildFrameSrcdoc(meta: string, srcs: seq<string>, tests: string): string {
    meta + ScriptTags(KeptScripts(srcs)) + SrcdocTail(tests)
  }

  /** The string assembly of `run_tests_in_child_frame`, one `+=` at a time. */
  method BuildChildFrameSrcdoc(meta: string, headScriptSrcs: seq<string>, tests: string)
    returns (srcdoc: string)
    ensures srcdoc == ChildFrameSrcdoc(meta, headScriptSrcs, tests)
  {
    srcdoc := meta;
    var kept := KeptScripts(headScriptSrcs);
    for i := 0 to |kept|
      invariant srcdoc == meta + ScriptTags(kept[..i])
    {
      ScriptTagsOneMore(kept, i);
      srcdoc := srcdoc + ("<script src=\"" + kept[i] + "\"></sc" + "ript>");
    }
    assert kept[..|kept|] == kept;
    ghost var head := srcdoc;
    srcdoc := srcdoc + "<body><script>";
    srcdoc := srcdoc + "setup({output: false});";
    srcdoc := srcdoc + ("(" + tests + ")()" + "</sc" + "ript>");
    SrcdocTailAppend(head, tests);
  }

  lemma ScriptTagsOneMore(srcs: seq<string>, i: nat)
    requires i < |srcs|
    ensures ScriptTags(srcs[..i + 1]) == ScriptTags(srcs[..i]) + ScriptTag(srcs[i])
  {
    assert srcs[..i + 1][..i] == srcs[..i];
  }

  lemma SrcdocTailAppend(head: string, tests: string)
    ensures head + "<body><script>" + "setup({output: false});" + ("(" + tests + ")()" + "</sc" + "ript>")
            == head + SrcdocTail(tests)
  {
  }

  /** The tail, written as one literal. */
  lemma SrcdocTailText(tests: string)
    ensures SrcdocTail(tests) == "<body><script>setup({output: false});(" + tests + ")()</script>"
  {
  }

  /**
   * The document starts with `meta`, ends with the harness setup and the
   * call of `tests`, and has the kept script tags in between.
   */
  lemma ChildFrameSrcdocLayout(meta: string, srcs: seq<string>, tests: string)
    ensures var d := ChildFrameSrcdoc(meta, srcs, tests);
      var tags := ScriptTags(KeptScripts(srcs));
      var tail := SrcdocTail(tests);
      && |d| == |meta| + |tags| + |tail|
      && d[..|meta|] == meta
      && d[|meta|..|meta| + |tags|] == tags
      && d[|meta| + |tags|..] == tail
  {
    var tags := ScriptTags(KeptScripts(srcs));
    var tail := SrcdocTail(tests);
    var d := meta + tags + tail;
    assert d[..|meta|] == meta;
    assert d[|meta|..|meta| + |tags|] == tags;
    assert d[|meta| + |tags|..] == tail;
  }

  /** The filter keeps the document order: it distributes over concatenation. */
  lemma {:induction false} KeptScriptsAppend(a: seq<string>, b: seq<string>)
    ensures KeptScripts(a + b) == KeptScripts(a) + KeptScripts(b)
    decreases |a|
  {
    if a == [] {
      assert a + b == b;
    } else {
      var head := if KeepScript(a[0]) then [a[0]] else [];
      assert (a + b)[0] == a[0] && (a + b)[1..] == a[1..] + b;
      calc {
        KeptScripts(a + b);
        head + KeptScripts(a[1..] + b);
        { KeptScriptsAppend(a[1..], b); }
        head + (KeptScripts(a[1..]) + KeptScripts(b));
        head + KeptScripts(a[1..]) + KeptScripts(b);
        KeptScripts(a) + KeptScripts(b);
      }
    }
  }

  /**
   * Exactly the scripts whose `src` does not contain the report script's
   * name are kept, each as often as it appears.
   */
  lemma {:induction false} KeptScriptsCount(srcs: seq<string>, src: string)
    ensures multiset(KeptScripts(srcs))[src] ==
              if KeepScript(src) then multiset(srcs)[src] else 0
    decreases |srcs|
  {
    if srcs != [] {
      KeptScriptsCount(srcs[1..], src);
      assert srcs == [srcs[0]] + srcs[1..];
    }
  }

  /** The tags of a concatenation are the concatenation of the tags. */
  lemma {:induction false} ScriptTagsAppend(a: seq<string>, b: seq<string>)
    ensures ScriptTags(a + b) == ScriptTags(a) + ScriptTags(b)
    decreases |b|
  {
    if b == [] {
      assert a + b == a;
    } else {
      var b', last := b[..|b| - 1], b[|b| - 1];
      var tag := ScriptTag(last);
      assert (a + b)[..|a + b| - 1] == a + b';
      assert (a + b)[|a + b| - 1] == last;
      calc {
        ScriptTags(a + b);
        ScriptTags(a + b') + tag;
        { ScriptTagsAppend(a, b'); }
        ScriptTags(a) + ScriptTags(b') + tag;
        ScriptTags(a) + (ScriptTags(b') + tag);
        ScriptTags(a) + ScriptTags(b);
      }
    }
  }
}
