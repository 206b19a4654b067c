/** The key under which volumes of one CFS Turbo directory share a global mount. */
module MountKey {
  import opened Strings

  const DEFAULT_ROOT_DIR := "/cfs"

  /** The file system id, with the root directory appended when it is not the default one. */
  function Key(fsid: string, rootDir: string): (key: string) {
    if rootDir != DEFAULT_ROOT_DIR then fsid + ReplaceAll(rootDir, '/', '-') else fsid
  }

  /** With dash-free file system ids a key determines the file system, and the root directory up to
      reading `/` as `-`: these are exactly the collisions. */
  lemma KeyCollisions(fsid: string, rootDir: string, fsid': string, rootDir': string)
    requires Free(fsid, '-') && Free(fsid', '-')
    requires HasPrefix(rootDir, "/") && HasPrefix(rootDir', "/")
    ensures Key(fsid, rootDir) == Key(fsid', rootDir') <==>
            && fsid == fsid'
            && (rootDir == DEFAULT_ROOT_DIR <==> rootDir' == DEFAULT_ROOT_DIR)
            && ReplaceAll(rootDir, '/', '-') == ReplaceAll(rootDir', '/', '-')
  {
    var key, key' := Key(fsid, rootDir), Key(fsid', rootDir');
    if key == key' {
      KeySplits(fsid, rootDir);
      KeySplits(fsid', rootDir');
      if rootDir != DEFAULT_ROOT_DIR && rootDir' != DEFAULT_ROOT_DIR {
        assert ReplaceAll(rootDir, '/', '-') == key[|fsid|..];
        assert ReplaceAll(rootDir', '/', '-') == key'[|fsid'|..];
      }
    }
  }

  /** The file system id is what comes before the first dash, and only default keys are dash-free. */
  lemma KeySplits(fsid: string, rootDir: string)
    requires Free(fsid, '-') && HasPrefix(rootDir, "/")
    ensures Split(Key(fsid, rootDir), '-')[0] == fsid
    ensures Free(Key(fsid, rootDir), '-') <==> rootDir == DEFAULT_ROOT_DIR
  {
    if rootDir == DEFAULT_ROOT_DIR {
      SplitFree(fsid, '-');
    } else {
      var dashed := ReplaceAll(rootDir, '/', '-');
      assert rootDir[0] == '/' && dashed[0] == '-';
      assert dashed == ['-'] + dashed[1..];
      assert fsid + dashed == fsid + ['-'] + dashed[1..];
      SplitFirst(fsid, dashed[1..], '-');
      assert (fsid + dashed)[|fsid|] == '-';
    }
  }

  /** The default root directory is left out of the key, every other one is in it. */
  lemma KeySpelledOut(fsid: string, rootDir: string)
    ensures Key(fsid, "/cfs") == fsid
    ensures rootDir != "/cfs" ==>
              var key := Key(fsid, rootDir);
              |key| == |fsid| + |rootDir| && fsid <= key &&
              forall i :: 0 <= i < |rootDir| ==> key[|fsid| + i] == if rootDir[i] == '/' then '-' else rootDir[i]
  {
  }

  /** The key is injective when neither part contains a dash. */
  lemma KeyInjective(fsid: string, rootDir: string, fsid': string, rootDir': string)
    requires Free(fsid, '-') && Free(fsid', '-') && Free(rootDir, '-') && Free(rootDir', '-')
    requires HasPrefix(rootDir, "/") && HasPrefix(rootDir', "/")
    requires Key(fsid, rootDir) == Key(fsid', rootDir')
    ensures fsid == fsid' && rootDir == rootDir'
  {
    KeyCollisions(fsid, rootDir, fsid', rootDir');
    var dashed, dashed' := ReplaceAll(rootDir, '/', '-'), ReplaceAll(rootDir', '/', '-');
    assert |rootDir| == |rootDir'|;
    forall i | 0 <= i < |rootDir| ensures rootDir[i] == rootDir'[i] {
      assert dashed[i] == dashed'[i];
    }
  }

  /** A dash in either part is enough to make two different directories share a key. */
  lemma DashesCollide()
    ensures Key("a", "/b-c") == Key("a", "/b/c")
    ensures Key("a-b", "/c") == Key("a", "/b/c")
    ensures Key("a-b", DEFAULT_ROOT_DIR) == Key("a", "/b")
  {
    assert ReplaceAll("/b-c", '/', '-') == "-b-c";
    assert ReplaceAll("/b/c", '/', '-') == "-b-c";
    assert ReplaceAll("/c", '/', '-') == "-c";
    assert ReplaceAll("/b", '/', '-') == "-b";
  }

  /** A key names a list file below `/etc/cfsturbo/global/config` and a mount directory beside `config`. */
  predicate Plain(key: string) {
    Free(key, '/') && key !in {"", ".", "..", "config"}
  }

  /** It is a path component of its own, and not the list directory, exactly when the file system id is slash-free
      and, for the default root directory, such a component itself. */
  lemma KeyIsPlainIff(fsid: string, rootDir: string)
    requires HasPrefix(rootDir, "/")
    ensures Plain(Key(fsid, rootDir)) <==>
            Free(fsid, '/') && (rootDir == DEFAULT_ROOT_DIR ==> fsid !in {"", ".", "..", "config"})
  {
    if rootDir != DEFAULT_ROOT_DIR {
      var dashed := ReplaceAll(rootDir, '/', '-');
      assert rootDir[0] == '/' && dashed[0] == '-';
      FreeOfBoth(fsid, dashed, '/');
      HasDash(fsid, dashed);
    }
  }

  lemma FreeOfBoth(a: string, b: string, c: char)
    ensures Free(a + b, c) <==> Free(a, c) && Free(b, c)
  {
    assert forall x :: x in a + b <==> x in a || x in b;
  }

  lemma HasDash(fsid: string, dashed: string)
    requires '-' in dashed
    ensures fsid + dashed !in {"", ".", "..", "config"}
  {
    assert '-' in fsid + dashed;
    assert '-' !in "" && '-' !in "." && '-' !in ".." && '-' !in "config";
  }
}
