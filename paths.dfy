/** Classification and rewriting of thymesheet paths (ThymesheetPreprocessor.isClassPath, fixClassPath). */
module Paths {
  import opened Sequences

  const ClassPathPrefix: string := "classpath:"

  /**
   * A path is looked up on the class path when no servlet-context URL factory is
   * configured, or when it carries the "classpath:" prefix.
   */
  predicate IsClassPath(hasUrlFactory: bool, filePath: string)
    ensures hasUrlFactory && IsClassPath(hasUrlFactory, filePath) ==> |ClassPathPrefix| <= |filePath|
  {
    !hasUrlFactory || StartsWith(filePath, ClassPathPrefix)
  }

  /** The class-path resource name: every occurrence of "classpath:" removed. */
  function FixClassPath(filePath: string): (r: string)
    ensures |r| <= |filePath|
  {
    ReplaceAll(filePath, ClassPathPrefix, "")
  }

  /** Without a URL factory every path is a class-path path; with one, exactly the prefixed paths are. */
  lemma IsClassPathCases(hasUrlFactory: bool, filePath: string)
    ensures !hasUrlFactory ==> IsClassPath(hasUrlFactory, filePath)
    ensures hasUrlFactory ==> (IsClassPath(hasUrlFactory, filePath) <==> exists q :: filePath == ClassPathPrefix + q)
  {
    if hasUrlFactory && StartsWith(filePath, ClassPathPrefix) {
      var q := filePath[|ClassPathPrefix|..];
      assert filePath == ClassPathPrefix + q;
    }
    if hasUrlFactory && exists q :: filePath == ClassPathPrefix + q {
      var q :| filePath == ClassPathPrefix + q;
      assert filePath[..|ClassPathPrefix|] == ClassPathPrefix;
    }
  }

  /** A path without any "classpath:" is passed to the class loader unchanged. */
  lemma FixClassPathIdentity(filePath: string)
    requires !Contains(filePath, ClassPathPrefix)
    ensures FixClassPath(filePath) == filePath
  {
    ReplaceAllWithoutTarget(filePath, ClassPathPrefix, "");
  }

  /** Removing a leading "classpath:" yields the rest, rewritten in the same way. */
  lemma FixClassPathDropsPrefix(rest: string)
    ensures FixClassPath(ClassPathPrefix + rest) == FixClassPath(rest)
  {
    ReplaceAllLeadingTarget(ClassPathPrefix, rest, "");
  }

  /** "classpath:" + q becomes q when q holds no further "classpath:". */
  lemma FixClassPathStripsPrefix(q: string)
    requires !Contains(q, ClassPathPrefix)
    ensures FixClassPath(ClassPathPrefix + q) == q
  {
    FixClassPathDropsPrefix(q);
    FixClassPathIdentity(q);
  }

  /**
   * With a URL factory, a path routed to the class path is looked up under the text after its
   * prefix, provided that text holds no further "classpath:".
   */
  lemma ClassPathLookupName(filePath: string)
    requires IsClassPath(true, filePath)
    requires !Contains(filePath[|ClassPathPrefix|..], ClassPathPrefix)
    ensures FixClassPath(filePath) == filePath[|ClassPathPrefix|..]
  {
    var q := filePath[|ClassPathPrefix|..];
    assert filePath == ClassPathPrefix + q;
    FixClassPathStripsPrefix(q);
  }

  /** A path shorter than the prefix is looked up as it is. */
  lemma FixClassPathShort(filePath: string)
    requires |filePath| < |ClassPathPrefix|
    ensures FixClassPath(filePath) == filePath
  {
  }

  /** A character that does not start an occurrence is kept and the scan moves on by one. */
  lemma FixClassPathSkipsCharacter(filePath: string)
    requires |filePath| >= |ClassPathPrefix| && filePath[..|ClassPathPrefix|] != ClassPathPrefix
    ensures FixClassPath(filePath) == [filePath[0]] + FixClassPath(filePath[1..])
  {
  }

  /**
   * An occurrence anywhere in a path is removed and the text on either side is rewritten on its
   * own: no occurrence can straddle the boundary, since ':' ends "classpath:" and appears nowhere
   * else in it.
   */
  lemma {:induction false} FixClassPathInnerOccurrence(a: string, b: string)
    ensures FixClassPath(a + ClassPathPrefix + b) == FixClassPath(a) + FixClassPath(b)
    decreases |a|
  {
    var n := |ClassPathPrefix|;
    var s := a + ClassPathPrefix + b;
    if a == [] {
      assert s == ClassPathPrefix + b;
      FixClassPathDropsPrefix(b);
      FixClassPathShort(a);
    } else if n <= |a| && a[..n] == ClassPathPrefix {
      var tail := a[n..];
      assert a == ClassPathPrefix + tail;
      assert s == ClassPathPrefix + (tail + ClassPathPrefix + b);
      FixClassPathDropsPrefix(tail + ClassPathPrefix + b);
      FixClassPathDropsPrefix(tail);
      FixClassPathInnerOccurrence(tail, b);
    } else {
      assert s[..n] != ClassPathPrefix by {
        if n <= |a| {
          assert s[..n] == a[..n];
        } else {
          assert s[n - 1] == ClassPathPrefix[n - 1 - |a|];
        }
      }
      FixClassPathSkipsCharacter(s);
      assert s[1..] == a[1..] + ClassPathPrefix + b;
      FixClassPathInnerOccurrence(a[1..], b);
      if n <= |a| {
        FixClassPathSkipsCharacter(a);
      } else {
        FixClassPathShort(a);
        FixClassPathShort(a[1..]);
        assert a == [a[0]] + a[1..];
      }
    }
  }

  /** Removal is a single pass: the prefix inserted after its own first character ("cclasspath:lasspath:")
   *  loses the inner occurrence, and the parts around it assemble a new "classpath:". */
  lemma FixClassPathAssemblesPrefix(filePath: string)
    requires filePath == [ClassPathPrefix[0]] + (ClassPathPrefix + ClassPathPrefix[1..])
    ensures FixClassPath(filePath) == ClassPathPrefix
  {
    var head, rest := [ClassPathPrefix[0]], ClassPathPrefix[1..];
    assert filePath == head + ClassPathPrefix + rest;
    FixClassPathInnerOccurrence(head, rest);
    FixClassPathShort(head);
    FixClassPathShort(rest);
    assert head + rest == ClassPathPrefix;
  }

  /** Hence applying the rewrite twice can give a different name than applying it once. */
  lemma FixClassPathNotIdempotent(filePath: string)
    requires filePath == [ClassPathPrefix[0]] + (ClassPathPrefix + ClassPathPrefix[1..])
    ensures FixClassPath(FixClassPath(filePath)) != FixClassPath(filePath)
  {
    FixClassPathAssemblesPrefix(filePath);
    FixClassPathStripsPrefix("");
    assert ClassPathPrefix + "" == ClassPathPrefix;
  }
}
