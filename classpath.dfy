/**
 * hudson.util.ClasspathBuilder: an append-only list of path entries that is
 * rendered as one classpath argument, the entries joined by the platform's
 * path separator.
 *
 * The file system is not modelled: `File.getAbsolutePath()`,
 * `FilePath.getRemote()` and the listing `FilePath.list(glob)` are values the
 * caller supplies, and so is `File.pathSeparator`.
 */
module Classpath {
  import opened Wrappers

  /** A java.io.File, by its absolute path. */
  datatype File = File(absolutePath: string)

  /** A hudson.FilePath, by its path on the machine it lives on. */
  datatype FilePath = FilePath(remote: string)

  /** The remote paths of a listing, in listing order. */
  function Remotes(items: seq<FilePath>): (paths: seq<string>)
    ensures |paths| == |items|
    ensures forall i :: 0 <= i < |items| ==> paths[i] == items[i].remote
  {
    if items == [] then [] else [items[0].remote] + Remotes(items[1..])
  }

  /** `Util.join`: the entries in order, with `sep` between each two neighbours. */
  function Join(entries: seq<string>, sep: string): string
  {
    if |entries| == 0 then ""
    else if |entries| == 1 then entries[0]
    else entries[0] + sep + Join(entries[1..], sep)
  }

  /** Adding an entry to a non-empty classpath adds the separator and the entry at the end of its string. */
  lemma {:induction false} JoinAppend(entries: seq<string>, sep: string, path: string)
    requires entries != []
    ensures Join(entries + [path], sep) == Join(entries, sep) + sep + path
    decreases |entries|
  {
    if |entries| == 1 {
      assert entries + [path] == [entries[0], path];
    } else {
      JoinAppend(entries[1..], sep, path);
      assert (entries + [path])[1..] == entries[1..] + [path];
    }
  }

  /** The length of a joined classpath: every entry, and one separator between each two. */
  lemma {:induction false} JoinLength(entries: seq<string>, sep: string)
    requires entries != []
    ensures |Join(entries, sep)| == TotalLength(entries) + (|entries| - 1) * |sep|
    decreases |entries|
  {
    if |entries| > 1 {
      JoinLength(entries[1..], sep);
    }
  }

  /** The summed length of the entries. */
  function TotalLength(entries: seq<string>): nat
  {
    if entries == [] then 0 else |entries[0]| + TotalLength(entries[1..])
  }

  /** Cuts a string at every occurrence of `c`; the inverse of joining with `c`. */
  function Split(s: string, c: char): (parts: seq<string>)
    ensures |parts| >= 1
  {
    if s == [] then [""]
    else
      var rest := Split(s[1..], c);
      if s[0] == c then [""] + rest
      else [[s[0]] + rest[0]] + rest[1..]
  }

  /** A string without `c` splits into itself alone. */
  lemma {:induction false} SplitWithout(s: string, c: char)
    requires c !in s
    ensures Split(s, c) == [s]
    decreases |s|
  {
    if s != [] {
      SplitWithout(s[1..], c);
      assert [s[0]] + s[1..] == s;
    }
  }

  /** An entry without `c`, followed by `c`, splits off as the first part. */
  lemma {:induction false} SplitAfterEntry(entry: string, c: char, tail: string)
    requires c !in entry
    ensures Split(entry + [c] + tail, c) == [entry] + Split(tail, c)
    decreases |entry|
  {
    if entry == [] {
      assert entry + [c] + tail == [c] + tail;
      assert ([c] + tail)[1..] == tail;
    } else {
      var s := entry + [c] + tail;
      SplitAfterEntry(entry[1..], c, tail);
      assert s[1..] == entry[1..] + [c] + tail;
      assert [entry[0]] + entry[1..] == entry;
    }
  }

  /**
   * With a one-character separator that no entry contains, the classpath
   * string determines its entries: cutting it at the separator gives them
   * back, in order.
   */
  lemma {:induction false} SplitJoin(entries: seq<string>, c: char)
    requires entries != []
    requires forall i :: 0 <= i < |entries| ==> c !in entries[i]
    ensures Split(Join(entries, [c]), c) == entries
    decreases |entries|
  {
    if |entries| == 1 {
      SplitWithout(entries[0], c);
    } else {
      SplitJoin(entries[1..], c);
      SplitAfterEntry(entries[0], c, Join(entries[1..], [c]));
      assert [entries[0]] + entries[1..] == entries;
    }
  }

  class ClasspathBuilder {
    /** The entries added so far, in the order they were added. */
    var args: seq<string>

    constructor ()
      ensures args == []
    {
      args := [];
    }

    /** `add(String)`: appends one directory or jar as the new last entry, and returns this builder. */
    method Add(path: string) returns (self: ClasspathBuilder)
      modifies this
      ensures self == this
      ensures args == old(args) + [path]
    {
      args := args + [path];
      self := this;
    }

    /** `add(File)`: adds the file's absolute path. */
    method AddFile(f: File) returns (self: ClasspathBuilder)
      modifies this
      ensures self == this
      ensures args == old(args) + [f.absolutePath]
    {
      self := Add(f.absolutePath);
    }

    /** `add(FilePath)`: adds the file path's remote path. */
    method AddFilePath(f: FilePath) returns (self: ClasspathBuilder)
      modifies this
      ensures self == this
      ensures args == old(args) + [f.remote]
    {
      self := Add(f.remote);
    }

    /**
     * `addAll(base, glob)`, given what `base.list(glob)` gave: every listed
     * item is added in listing order; when the listing throws, nothing is
     * added and the exception propagates.
     */
    method AddAll(listing: Result<seq<FilePath>, JavaException>) returns (r: Result<ClasspathBuilder, JavaException>)
      modifies this
      ensures listing.Err? ==> r == Err(listing.error) && args == old(args)
      ensures listing.Ok? ==> r == Ok(this) && args == old(args) + Remotes(listing.value)
    {
      if listing.Err? {
        return Err(listing.error);
      }
      var items := listing.value;
      var i := 0;
      while i < |items|
        invariant 0 <= i <= |items|
        invariant args == old(args) + Remotes(items[..i])
      {
        var _ := AddFilePath(items[i]);
        assert Remotes(items[..i + 1]) == Remotes(items[..i]) + [items[i].remote];
        i := i + 1;
      }
      assert items[..i] == items;
      r := Ok(this);
    }

    /**
     * `toString()`: the entries joined by `pathSeparator`, in insertion order;
     * no entries give the empty string and one entry gives that entry alone.
     */
    function ToString(pathSeparator: string): (s: string)
      reads this
      ensures args == [] ==> s == ""
      ensures |args| == 1 ==> s == args[0]
      ensures |args| > 1 ==> s == args[0] + pathSeparator + Join(args[1..], pathSeparator)
    {
      Join(args, pathSeparator)
    }
  }

  /** A builder's string grows by the separator and the new entry on each `add`, from the second entry on. */
  method AddExtendsString(b: ClasspathBuilder, path: string, pathSeparator: string)
    requires b.args != []
    modifies b
    ensures b.ToString(pathSeparator) == old(b.ToString(pathSeparator)) + pathSeparator + path
  {
    var _ := b.Add(path);
    JoinAppend(old(b.args), pathSeparator, path);
  }
}
