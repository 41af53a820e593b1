/**
 * Start-up rules of the satellite service: a plugin name
 * `controller[/pattern]` selects the controller module and the pattern
 * module (pattern "default" when none is named), and the service only
 * starts with `--test` or a non-empty `--uri`.
 */
module PluginName {
  import opened Wrappers

  const Sep: char := '/'

  /** Python's `str.split(sep)`: the maximal runs between separators, empty ones included. */
  function Split(s: string, sep: char): (parts: seq<string>)
    ensures |parts| >= 1
    ensures forall k :: 0 <= k < |parts| ==> sep !in parts[k]
    ensures Join(parts, sep) == s
  {
    if s == [] then [""]
    else
      var rest := Split(s[1..], sep);
      if s[0] == sep then [""] + rest
      else [[s[0]] + rest[0]] + rest[1..]
  }

  /** `sep.join(parts)`. */
  function Join(parts: seq<string>, sep: char): string
  {
    if parts == [] then ""
    else if |parts| == 1 then parts[0]
    else parts[0] + [sep] + Join(parts[1..], sep)
  }

  /** A separator-free prefix followed by a separator becomes the first part on its own. */
  lemma {:induction false} SplitAfterSegment(c: string, t: string, sep: char)
    requires sep !in c
    ensures Split(c + [sep] + t, sep) == [c] + Split(t, sep)
  {
    if c != [] {
      var s := c + [sep] + t;
      assert s[0] == c[0] != sep;
      assert s[1..] == c[1..] + [sep] + t;
      SplitAfterSegment(c[1..], t, sep);
      var rest := Split(s[1..], sep);
      assert rest[0] == c[1..] && rest[1..] == Split(t, sep);
      assert [c[0]] + c[1..] == c;
    } else {
      assert c + [sep] + t == [sep] + t;
      assert ([sep] + t)[1..] == t;
    }
  }

  /** A separator-free string splits into itself alone. */
  lemma {:induction false} SplitSegment(c: string, sep: char)
    requires sep !in c
    ensures Split(c, sep) == [c]
  {
    if c != [] {
      SplitSegment(c[1..], sep);
    }
  }

  /** The two modules a plugin name selects, as `importlib` paths relative to the package. */
  datatype Modules = Modules(controller: string, pattern: string)

  const DefaultPattern := "default"

  /** Two separator-free parts joined by a separator split back into those two. */
  lemma {:induction false} SplitTwoParts(c: string, p: string, sep: char)
    requires sep !in c && sep !in p
    ensures Split(c + [sep] + p, sep) == [c, p]
  {
    SplitAfterSegment(c, p, sep);
    SplitSegment(p, sep);
  }

  /** Two separator-free parts followed by a separator and anything: the first two parts. */
  lemma {:induction false} SplitThreeParts(c: string, p: string, r: string, sep: char)
    requires sep !in c && sep !in p
    ensures Split(c + [sep] + (p + [sep] + r), sep) == [c, p] + Split(r, sep)
  {
    SplitAfterSegment(c, p + [sep] + r, sep);
    SplitAfterSegment(p, r, sep);
  }

  /** A string is the text before position k, the character there, and the text after. */
  lemma SliceAround(s: string, k: nat)
    requires k < |s|
    ensures s == s[..k] + [s[k]] + s[k + 1..]
  {
    assert s == s[..k] + s[k..];
  }

  /**
   * The first two parts of a name: a separator-free `name[..k]`, the
   * separator at `k`, then a separator-free `name[k + 1..l]` that runs to
   * the end or to the next separator at `l`.
   */
  lemma {:induction false} SplitTwoSegments(name: string, k: nat, l: nat, sep: char)
    requires k < l <= |name| && name[k] == sep
    requires sep !in name[..k] && sep !in name[k + 1..l]
    requires l == |name| || name[l] == sep
    ensures |Split(name, sep)| > 1
    ensures Split(name, sep)[0] == name[..k] && Split(name, sep)[1] == name[k + 1..l]
  {
    SliceAround(name, k);
    var t := name[k + 1..];
    if l == |name| {
      assert t == name[k + 1..l];
      SplitTwoParts(name[..k], t, sep);
    } else {
      var m := l - k - 1;
      SliceAround(t, m);
      assert t[..m] == name[k + 1..l] && t[m] == sep && t[m + 1..] == name[l + 1..];
      SplitThreeParts(name[..k], name[k + 1..l], name[l + 1..], sep);
    }
  }

  /** Positions `k < l` mark the first two parts of `name`, as in `SplitTwoSegments`. */
  predicate SeparatedAt(name: string, k: nat, l: nat)
  {
    k < l <= |name| && name[k] == Sep && Sep !in name[..k] && Sep !in name[k + 1..l] &&
    (l == |name| || name[l] == Sep)
  }

  /** `SplitTwoSegments` for every such pair of positions, and the name without separator. */
  lemma LeadingSegments(name: string)
    ensures Sep !in name ==> Split(name, Sep) == [name]
    ensures forall k: nat, l: nat :: SeparatedAt(name, k, l) ==>
      |Split(name, Sep)| > 1 && Split(name, Sep)[0] == name[..k] && Split(name, Sep)[1] == name[k + 1..l]
  {
    if Sep !in name {
      SplitSegment(name, Sep);
    }
    forall k: nat, l: nat | SeparatedAt(name, k, l)
    {
      SplitTwoSegments(name, k, l, Sep);
    }
  }

  /**
   * `create_led_pattern`'s name handling: the controller is the text before
   * the first '/', the pattern the text between it and the next '/' (or the
   * end), "default" when the name has no '/'; anything after a second '/' is
   * ignored.
   */
  function ModulesFor(name: string): (m: Modules)
    ensures Sep !in name ==> m == Modules(".led_controller." + name, ".led_pattern." + DefaultPattern)
    ensures forall k: nat, l: nat :: SeparatedAt(name, k, l) ==>
      m == Modules(".led_controller." + name[..k], ".led_pattern." + name[k + 1..l])
  {
    LeadingSegments(name);
    var p := Split(name, Sep);
    Modules(".led_controller." + p[0], ".led_pattern." + if |p| > 1 then p[1] else DefaultPattern)
  }

  /** A name without '/' names only the controller; the pattern is the default one. */
  lemma ControllerOnly(c: string)
    requires Sep !in c
    ensures ModulesFor(c) == Modules(".led_controller." + c, ".led_pattern.default")
  {
    SplitSegment(c, Sep);
  }

  /** `controller/pattern` selects both; anything after a further '/' is ignored. */
  lemma ControllerAndPattern(c: string, p: string, rest: string)
    requires Sep !in c && Sep !in p
    ensures ModulesFor(c + [Sep] + p) == Modules(".led_controller." + c, ".led_pattern." + p)
    ensures ModulesFor(c + [Sep] + p + [Sep] + rest) == Modules(".led_controller." + c, ".led_pattern." + p)
  {
    SplitAfterSegment(c, p, Sep);
    SplitSegment(p, Sep);
    assert c + [Sep] + p + [Sep] + rest == c + [Sep] + (p + [Sep] + rest);
    SplitAfterSegment(c, p + [Sep] + rest, Sep);
    SplitAfterSegment(p, rest, Sep);
  }

  /** What `main` does with its arguments. */
  datatype Startup = Abort | Launch(modules: Modules, test: bool)

  /**
   * `main`: without `--test` and without a (non-empty) `--uri` it aborts;
   * otherwise it creates the pattern named by `--led-pattern` and runs the
   * demo (`--test` wins) or the server.
   */
  function Start(ledPattern: string, uri: Option<string>, test: bool): (r: Startup)
    ensures r.Abort? <==> !test && (uri == None || uri == Some(""))
    ensures r.Launch? ==> r.modules == ModulesFor(ledPattern) && r.test == test
  {
    if !test && (uri.None? || uri.value == "") then Abort
    else Launch(ModulesFor(ledPattern), test)
  }
}
