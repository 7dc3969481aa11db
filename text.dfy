/** Small helpers shared by the model: optional values, results, and the few
    string operations the Python code uses (`str.lower`, `in`, `endswith`,
    `os.path.basename`). */
module Text {

  datatype Option<+T> = None | Some(value: T)

  datatype Result<+T, +E> = Success(value: T) | Failure(error: E)

  /** ASCII lower-casing of one character (`str.lower` restricted to ASCII). */
  function LowerChar(c: char): char
  {
    if 'A' <= c <= 'Z' then (c as int + 32) as char else c
  }

  function Lower(s: string): (r: string)
    ensures |r| == |s|
    ensures forall i :: 0 <= i < |s| ==> r[i] == LowerChar(s[i])
  {
    if s == [] then [] else [LowerChar(s[0])] + Lower(s[1..])
  }

  predicate StartsWith(s: string, prefix: string)
  {
    |prefix| <= |s| && s[..|prefix|] == prefix
  }

  predicate EndsWith(s: string, suffix: string)
  {
    |suffix| <= |s| && s[|s| - |suffix|..] == suffix
  }

  /** Python's `sub in s` on strings: `sub` occurs at some offset of `s`. */
  predicate Contains(s: string, sub: string)
  {
    StartsWith(s, sub) || (s != [] && Contains(s[1..], sub))
  }

  /** `any(k in s for k in keys)`. */
  predicate ContainsAny(s: string, keys: seq<string>)
  {
    exists k :: k in keys && Contains(s, k)
  }

  /** `sub` occurs in `s` starting at offset `i`. */
  predicate OccursAt(s: string, sub: string, i: int)
  {
    0 <= i <= |s| - |sub| && s[i..i + |sub|] == sub
  }

  /** The recursive `Contains` agrees with the offset-based definition. */
  lemma {:induction false} ContainsAt(s: string, sub: string)
    ensures Contains(s, sub) <==> exists i :: OccursAt(s, sub, i)
  {
    if StartsWith(s, sub) {
      assert OccursAt(s, sub, 0);
    } else if s != [] {
      ContainsAt(s[1..], sub);
      if Contains(s[1..], sub) {
        var i :| OccursAt(s[1..], sub, i);
        assert s[i + 1..i + 1 + |sub|] == s[1..][i..i + |sub|];
        assert OccursAt(s, sub, i + 1);
      }
      if exists i :: OccursAt(s, sub, i) {
        var i :| OccursAt(s, sub, i);
        assert i != 0;
        assert s[1..][i - 1..i - 1 + |sub|] == s[i..i + |sub|];
        assert OccursAt(s[1..], sub, i - 1);
      }
    }
  }

  /** `os.path.basename` for POSIX paths: the part after the last '/'. */
  function Basename(path: string): string
  {
    if path == [] then []
    else if path[|path| - 1] == '/' then []
    else Basename(path[..|path| - 1]) + [path[|path| - 1]]
  }

  /** The base name holds no '/', and is the whole path when the path has
      none. */
  lemma {:induction false} BasenameNoSlash(path: string)
    ensures '/' !in Basename(path)
    ensures '/' !in path ==> Basename(path) == path
  {
    if path != [] && path[|path| - 1] != '/' {
      var init := path[..|path| - 1];
      BasenameNoSlash(init);
      if '/' !in path {
        assert '/' !in init by {
          forall c | c in init ensures c != '/' {
            assert c in path;
          }
        }
        assert path == init + [path[|path| - 1]];
      }
    }
  }

  /** The base name is a suffix of the path, preceded by a '/' unless it is
      the whole path. */
  lemma {:induction false} BasenameIsLastSegment(path: string)
    ensures EndsWith(path, Basename(path))
    ensures |Basename(path)| < |path| ==> path[|path| - |Basename(path)| - 1] == '/'
  {
    if path != [] && path[|path| - 1] != '/' {
      var init := path[..|path| - 1];
      var last := path[|path| - 1];
      BasenameIsLastSegment(init);
      var rest := Basename(init);
      assert Basename(path) == rest + [last];
      assert path[|path| - |rest| - 1..] == rest + [last] by {
        assert init[|init| - |rest|..] == rest;
        assert path[|path| - |rest| - 1..] == init[|init| - |rest|..] + [last];
      }
      if |rest| < |init| {
        assert path[|path| - |rest| - 2] == init[|init| - |rest| - 1];
      }
    }
  }
}
