/** `tokensToCSSVariables` of lib/design-tokens.ts: five token groups become CSS custom
    properties inside one `:root` rule. Each group is given as its entry list in
    `Object.entries` order; for the shipped tokens that is the order written in the source,
    since the numeric keys already ascend. */
module DesignTokens {
  import opened TextUtil

  datatype Entry = Entry(key: string, value: string)

  datatype Tokens = Tokens(
    gold: seq<Entry>, graphite: seq<Entry>, spacing: seq<Entry>, shadows: seq<Entry>,
    borderRadius: seq<Entry>)

  /** `--<name>: <value>;` */
  function Declaration(name: string, value: string): string {
    "--" + name + ": " + value + ";"
  }

  /** How a group names its properties: colours and spacing put a prefix before the key;
      shadows and radii use the bare base name for the key `DEFAULT` and `<base>-<key>` for
      any other. */
  datatype Naming = Prefixed(prefix: string) | Defaultable(base: string)

  function Name(n: Naming, key: string): string {
    match n
    case Prefixed(p) => p + key
    case Defaultable(b) => if key == "DEFAULT" then b else b + "-" + key
  }

  /** One group's lines, in entry order. The ensures spell the definition out index by
      index; it is the reference that `PushGroup` is proved against and that
      `PrefixedLines`, `DefaultNames` and `LinesInGroupOrder` are stated in. */
  function GroupLines(entries: seq<Entry>, name: Naming): (r: seq<string>)
    ensures |r| == |entries|
    ensures forall i :: 0 <= i < |entries| ==> r[i] == Declaration(Name(name, entries[i].key), entries[i].value)
  {
    seq(|entries|, i requires 0 <= i < |entries| => Declaration(Name(name, entries[i].key), entries[i].value))
  }

  /** Every line of the rule, group after group. */
  function Lines(t: Tokens): seq<string> {
    GroupLines(t.gold, Prefixed("color-gold-"))
    + GroupLines(t.graphite, Prefixed("color-graphite-"))
    + GroupLines(t.spacing, Prefixed("spacing-"))
    + GroupLines(t.shadows, Defaultable("shadow"))
    + GroupLines(t.borderRadius, Defaultable("radius"))
  }

  /** The five groups appear in order, one line per entry: the rule's lines are cut into
      consecutive slices, each exactly one group's lines. */
  lemma LinesInGroupOrder(t: Tokens)
    ensures var g, c, s, h := |t.gold|, |t.graphite|, |t.spacing|, |t.shadows|;
            && |Lines(t)| == g + c + s + h + |t.borderRadius|
            && Lines(t)[..g] == GroupLines(t.gold, Prefixed("color-gold-"))
            && Lines(t)[g..g + c] == GroupLines(t.graphite, Prefixed("color-graphite-"))
            && Lines(t)[g + c..g + c + s] == GroupLines(t.spacing, Prefixed("spacing-"))
            && Lines(t)[g + c + s..g + c + s + h] == GroupLines(t.shadows, Defaultable("shadow"))
            && Lines(t)[g + c + s + h..] == GroupLines(t.borderRadius, Defaultable("radius"))
  {
    ConcatSlices(GroupLines(t.gold, Prefixed("color-gold-")), GroupLines(t.graphite, Prefixed("color-graphite-")),
                 GroupLines(t.spacing, Prefixed("spacing-")), GroupLines(t.shadows, Defaultable("shadow")),
                 GroupLines(t.borderRadius, Defaultable("radius")));
  }

  /** Five sequences put end to end can be cut back into the five. */
  lemma ConcatSlices<T>(a: seq<T>, b: seq<T>, c: seq<T>, d: seq<T>, e: seq<T>)
    ensures var ls, g, k, s, h := a + b + c + d + e, |a|, |b|, |c|, |d|;
            && |ls| == g + k + s + h + |e|
            && ls[..g] == a && ls[g..g + k] == b && ls[g + k..g + k + s] == c
            && ls[g + k + s..g + k + s + h] == d && ls[g + k + s + h..] == e
  {
    var ls := a + b + c + d + e;
    assert ls[..|a|] == a;
    assert ls[|a|..|a| + |b|] == b;
    assert ls[|a| + |b|..|a| + |b| + |c|] == c;
    assert ls[|a| + |b| + |c|..|a| + |b| + |c| + |d|] == d;
    assert ls[|a| + |b| + |c| + |d|..] == e;
  }

  /** The lines of a prefixed group spelled out. */
  lemma PrefixedLines(entries: seq<Entry>, prefix: string)
    ensures forall i :: 0 <= i < |entries| ==>
              GroupLines(entries, Prefixed(prefix))[i] == "--" + prefix + entries[i].key + ": " + entries[i].value + ";"
  {
  }

  /** `DEFAULT` drops the key from the name; any other key is appended after a dash. */
  lemma DefaultNames(base: string, value: string, key: string)
    ensures Declaration(Name(Defaultable(base), "DEFAULT"), value) == "--" + base + ": " + value + ";"
    ensures key != "DEFAULT" ==>
              Declaration(Name(Defaultable(base), key), value) == "--" + base + "-" + key + ": " + value + ";"
  {
  }

  /** Appends one group's lines, entry by entry, as one `forEach` does. */
  method PushGroup(lines: seq<string>, entries: seq<Entry>, name: Naming) returns (out: seq<string>)
    ensures out == lines + GroupLines(entries, name)
  {
    out := lines;
    var i := 0;
    while i < |entries|
      invariant 0 <= i <= |entries|
      invariant out == lines + GroupLines(entries[..i], name)
    {
      assert GroupLines(entries[..i + 1], name) == GroupLines(entries[..i], name) + [Declaration(Name(name, entries[i].key), entries[i].value)];
      out := out + [Declaration(Name(name, entries[i].key), entries[i].value)];
      i := i + 1;
    }
    assert entries[..i] == entries;
  }

  /** `tokensToCSSVariables`: the lines of all five groups, indented inside `:root { … }`. */
  method TokensToCss(t: Tokens) returns (css: string)
    ensures css == ":root {\n  " + Join(Lines(t), "\n  ") + "\n}"
    ensures |css| >= 10 && css[..10] == ":root {\n  " && css[|css| - 2..] == "\n}"
  {
    var lines: seq<string> := [];
    lines := PushGroup(lines, t.gold, Prefixed("color-gold-"));
    lines := PushGroup(lines, t.graphite, Prefixed("color-graphite-"));
    lines := PushGroup(lines, t.spacing, Prefixed("spacing-"));
    lines := PushGroup(lines, t.shadows, Defaultable("shadow"));
    lines := PushGroup(lines, t.borderRadius, Defaultable("radius"));
    assert [] + GroupLines(t.gold, Prefixed("color-gold-")) == GroupLines(t.gold, Prefixed("color-gold-"));
    assert lines == Lines(t);
    css := ":root {\n  " + Join(lines, "\n  ") + "\n}";
  }

  /** The shipped tokens' five groups. */
  const Gold := [
    Entry("50", "#fefdf8"), Entry("100", "#fdf9e8"), Entry("200", "#fbf0c4"), Entry("300", "#f7e296"),
    Entry("400", "#f2ce5c"), Entry("500", "#d4a847"), Entry("600", "#b8923d"), Entry("700", "#8c6d2f"),
    Entry("800", "#5f4a20"), Entry("900", "#3d3015")]
  const Graphite := [
    Entry("50", "#f8f8f7"), Entry("100", "#e8e8e6"), Entry("200", "#d1d1cd"), Entry("300", "#a8a8a3"),
    Entry("400", "#7a7a74"), Entry("500", "#5c5c56"), Entry("600", "#4a4a45"), Entry("700", "#3d3d39"),
    Entry("800", "#2d2d2a"), Entry("900", "#1a1a18")]
  const Spacing := [
    Entry("0", "0"), Entry("1", "0.25rem"), Entry("2", "0.5rem"), Entry("3", "0.75rem"), Entry("4", "1rem"),
    Entry("5", "1.25rem"), Entry("6", "1.5rem"), Entry("8", "2rem"), Entry("10", "2.5rem"), Entry("12", "3rem"),
    Entry("16", "4rem"), Entry("20", "5rem"), Entry("24", "6rem")]
  const Shadows := [
    Entry("sm", "0 1px 2px 0 rgba(0, 0, 0, 0.05)"),
    Entry("DEFAULT", "0 1px 3px 0 rgba(0, 0, 0, 0.1), 0 1px 2px -1px rgba(0, 0, 0, 0.1)"),
    Entry("md", "0 4px 6px -1px rgba(0, 0, 0, 0.1), 0 2px 4px -2px rgba(0, 0, 0, 0.1)"),
    Entry("lg", "0 10px 15px -3px rgba(0, 0, 0, 0.1), 0 4px 6px -4px rgba(0, 0, 0, 0.1)"),
    Entry("xl", "0 20px 25px -5px rgba(0, 0, 0, 0.1), 0 8px 10px -6px rgba(0, 0, 0, 0.1)"),
    Entry("gold", "0 4px 14px 0 rgba(212, 168, 71, 0.25)"),
    Entry("gold-lg", "0 10px 25px -3px rgba(212, 168, 71, 0.3)"),
    Entry("glow", "0 0 20px rgba(212, 168, 71, 0.4)")]
  const BorderRadius := [
    Entry("none", "0"), Entry("sm", "0.25rem"), Entry("DEFAULT", "0.5rem"), Entry("md", "0.625rem"),
    Entry("lg", "0.75rem"), Entry("xl", "1rem"), Entry("2xl", "1.5rem"), Entry("full", "9999px")]

  const Shipped := Tokens(Gold, Graphite, Spacing, Shadows, BorderRadius)

  /** The shipped tokens give 49 lines, the first one gold's lightest shade. */
  lemma ShippedLineCount()
    ensures |Lines(Shipped)| == 49
    ensures Lines(Shipped)[0] == "--color-gold-" + Gold[0].key + ": " + Gold[0].value + ";"
  {
    LinesInGroupOrder(Shipped);
    var ls := Lines(Shipped);
    assert ls[0] == ls[..|Gold|][0];
  }

  /** In the shipped tokens the default shadow and radius are the bare `--shadow` and
      `--radius`, at the places their groups give them. */
  lemma ShippedDefaults()
    ensures |Lines(Shipped)| == 49
    ensures Lines(Shipped)[34] == "--shadow: " + Shadows[1].value + ";"
    ensures Lines(Shipped)[43] == "--radius: " + BorderRadius[2].value + ";"
  {
    LinesInGroupOrder(Shipped);
    var ls := Lines(Shipped);
    var hl := GroupLines(Shadows, Defaultable("shadow"));
    var rl := GroupLines(BorderRadius, Defaultable("radius"));
    assert ls[33..41] == hl && ls[41..] == rl;
    assert ls[34] == hl[1];
    assert ls[43] == rl[2];
  }
}
