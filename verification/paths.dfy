/**
 * Normalisation of the `model` and `icon` paths: the value is lower-cased and
 * every escaped backslash (two backslash characters in the YAML text) becomes
 * a forward slash.
 */
module Paths {

  predicate IsUpper(c: char)
  {
    'A' <= c <= 'Z'
  }

  function LowerChar(c: char): char
  {
    if IsUpper(c) then (c as int + 32) as char else c
  }

  /** Lower-casing, one character at a time. */
  function Lower(s: string): string
  {
    seq(|s|, i requires 0 <= i < |s| => LowerChar(s[i]))
  }

  predicate NoUpper(s: string)
  {
    forall i :: 0 <= i < |s| ==> !IsUpper(s[i])
  }

  /** No two adjacent backslashes. */
  predicate NoPair(s: string)
  {
    forall i :: 0 <= i < |s| - 1 ==> !(s[i] == '\\' && s[i + 1] == '\\')
  }

  /**
   * Replaces each pair of backslashes, scanning left to right and never
   * letting two replaced pairs overlap, by a slash.
   */
  function ReplacePairs(s: string): (r: string)
    ensures |r| <= |s|
    ensures s != [] ==> r != [] && (r[0] == s[0] || r[0] == '/')
  {
    if |s| >= 2 && s[0] == '\\' && s[1] == '\\' then "/" + ReplacePairs(s[2..])
    else if s == [] then []
    else [s[0]] + ReplacePairs(s[1..])
  }

  /** The path as it is written out for the model and icon fields. */
  function NormalizePath(s: string): string
  {
    ReplacePairs(Lower(s))
  }

  /** A normalised path has no upper-case letter and no two adjacent backslashes. */
  lemma NormalizePathClean(s: string)
    ensures NoUpper(NormalizePath(s)) && NoPair(NormalizePath(s))
  {
    LowerNoUpper(s);
    ReplacePairsNoPair(Lower(s));
    ReplacePairsKeepsNoUpper(Lower(s));
  }

  lemma LowerNoUpper(s: string)
    ensures NoUpper(Lower(s))
  {
  }

  lemma LowerFixes(s: string)
    requires NoUpper(s)
    ensures Lower(s) == s
  {
  }

  /** After the replacement no two backslashes are adjacent. */
  lemma {:induction false} ReplacePairsNoPair(s: string)
    ensures NoPair(ReplacePairs(s))
  {
    if |s| >= 2 && s[0] == '\\' && s[1] == '\\' {
      ReplacePairsNoPair(s[2..]);
    } else if s != [] {
      ReplacePairsNoPair(s[1..]);
      var r := ReplacePairs(s);
      assert r == [s[0]] + ReplacePairs(s[1..]);
      if s[0] == '\\' && |s| >= 2 {
        assert s[1] != '\\';
        assert r[1] == s[1] || r[1] == '/';
      }
    }
  }

  /** The replacement introduces only slashes, so it keeps a lower-case string lower-case. */
  lemma {:induction false} ReplacePairsKeepsNoUpper(s: string)
    requires NoUpper(s)
    ensures NoUpper(ReplacePairs(s))
  {
    if |s| >= 2 && s[0] == '\\' && s[1] == '\\' {
      ReplacePairsKeepsNoUpper(s[2..]);
    } else if s != [] {
      ReplacePairsKeepsNoUpper(s[1..]);
    }
  }

  /** A string without a backslash pair is left as it is. */
  lemma {:induction false} ReplacePairsFixes(s: string)
    requires NoPair(s)
    ensures ReplacePairs(s) == s
  {
    if s != [] {
      assert NoPair(s[1..]) by {
        forall i | 0 <= i < |s[1..]| - 1
          ensures !(s[1..][i] == '\\' && s[1..][i + 1] == '\\')
        {
          assert s[1..][i] == s[i + 1] && s[1..][i + 1] == s[i + 2];
        }
      }
      ReplacePairsFixes(s[1..]);
    }
  }

  /** Normalising a path twice gives the same result as normalising it once. */
  lemma NormalizePathIdempotent(s: string)
    ensures NormalizePath(NormalizePath(s)) == NormalizePath(s)
  {
    var once := NormalizePath(s);
    NormalizePathClean(s);
    LowerFixes(once);
    ReplacePairsFixes(once);
  }

  /** Text free of backslashes passes through the replacement unchanged. */
  lemma {:induction false} ReplacePairsPlain(a: string, b: string)
    requires '\\' !in a
    ensures ReplacePairs(a + b) == a + ReplacePairs(b)
  {
    if a != [] {
      assert (a + b)[0] == a[0] && a[0] in a;
      assert (a + b)[1..] == a[1..] + b;
      ReplacePairsPlain(a[1..], b);
      assert ReplacePairs(a + b) == [a[0]] + ReplacePairs(a[1..] + b);
      assert a == [a[0]] + a[1..];
    } else {
      assert a + b == b;
    }
  }

  lemma LowerAppend(a: string, b: string)
    ensures Lower(a + b) == Lower(a) + Lower(b)
  {
  }

  /**
   * An escaped separator between two path parts becomes a slash, and the
   * parts are normalised on their own.
   */
  lemma NormalizeSeparator(dir: string, rest: string)
    requires '\\' !in dir
    ensures NormalizePath(dir + "\\\\" + rest) == Lower(dir) + "/" + NormalizePath(rest)
  {
    LowerAppend(dir + "\\\\", rest);
    LowerAppend(dir, "\\\\");
    assert Lower("\\\\") == "\\\\";
    var low := Lower(dir);
    assert '\\' !in low by {
      forall i | 0 <= i < |low| ensures low[i] != '\\' {
        assert low[i] == LowerChar(dir[i]) && dir[i] in dir;
      }
    }
    assert Lower(dir + "\\\\" + rest) == low + ("\\\\" + Lower(rest));
    ReplacePairsPlain(low, "\\\\" + Lower(rest));
    assert ("\\\\" + Lower(rest))[2..] == Lower(rest);
  }


  lemma LowerMeshes()
    ensures Lower("Meshes") == "meshes"
  {
  }

  lemma NormalizeItemNif()
    ensures NormalizePath("Item.NIF") == "item.nif"
  {
    assert Lower("Item.NIF") == "item.nif";
    ReplacePairsPlain("item.nif", []);
    assert "item.nif" + [] == "item.nif";
  }

  /** A Windows-style mesh path becomes a lower-case, slash-separated one. */
  lemma NormalizePathExample(dir: string, file: string)
    requires dir == "Meshes" && file == "Item.NIF"
    ensures NormalizePath(dir + "\\\\" + file) == "meshes/item.nif"
  {
    NormalizeSeparator(dir, file);
    LowerMeshes();
    NormalizeItemNif();
    MeshPathJoined();
  }

  lemma MeshPathJoined()
    ensures "meshes" + "/" + "item.nif" == "meshes/item.nif"
  {
  }

  /** A lone backslash is kept; of three in a row, the first two become a slash. */
  lemma NormalizePathOddRun()
    ensures NormalizePath("A\\B") == "a\\b"
    ensures NormalizePath("x\\\\\\y") == "x/\\y"
  {
  }
}
