/** The text accumulation rule shared by the realtime worker's buffer and the
    foreground transcript, and the whitespace class of Python's `re` module. */
module Text {

  const Separator := "\n\n"

  /** One application of `acc += ("\n\n" if acc else "") + entry`. */
  function AppendEntry(acc: string, entry: string): string {
    acc + (if acc != "" then Separator else "") + entry
  }

  /** The string obtained by applying AppendEntry to each entry in turn,
      starting from the empty string. */
  function Accumulate(entries: seq<string>): string {
    if entries == [] then ""
    else AppendEntry(Accumulate(entries[..|entries| - 1]), entries[|entries| - 1])
  }

  /** Python's `"\n\n".join(entries)`: the reference the accumulation is
      compared with. */
  function Join(entries: seq<string>): string {
    if entries == [] then ""
    else if |entries| == 1 then entries[0]
    else entries[0] + Separator + Join(entries[1..])
  }

  /** Concatenation regrouped, for the proofs that extend a list one part at
      a time. */
  lemma Regroup<T>(a: seq<T>, b: seq<T>, c: seq<T>)
    ensures (a + b) + c == a + (b + c)
  {
  }

  predicate NonEmptyEntries(entries: seq<string>) {
    forall i :: 0 <= i < |entries| ==> entries[i] != ""
  }

  lemma {:induction false} JoinSnoc(entries: seq<string>, e: string)
    requires entries != []
    ensures Join(entries + [e]) == Join(entries) + Separator + e
  {
    if |entries| == 1 {
      assert entries + [e] == [entries[0], e];
    } else {
      assert (entries + [e])[1..] == entries[1..] + [e];
      JoinSnoc(entries[1..], e);
    }
  }

  /** With no empty entry, accumulating is joining with a blank line, with no
      leading separator. */
  lemma {:induction false} AccumulateIsJoin(entries: seq<string>)
    requires NonEmptyEntries(entries)
    ensures Accumulate(entries) == Join(entries)
    ensures entries != [] <==> Accumulate(entries) != ""
  {
    if entries != [] {
      var init := entries[..|entries| - 1];
      var last := entries[|entries| - 1];
      assert entries == init + [last];
      AccumulateIsJoin(init);
      if init != [] {
        JoinSnoc(init, last);
      }
    }
  }

  /** Adding one entry to an accumulation is the same as accumulating the
      longer sequence. */
  lemma AccumulateSnoc(entries: seq<string>, e: string)
    ensures Accumulate(entries + [e]) == AppendEntry(Accumulate(entries), e)
  {
    assert (entries + [e])[..|entries|] == entries;
  }

  /** The characters `\s` matches in a Python 3 `str` pattern. */
  predicate IsSpace(c: char) {
    ('\t' <= c <= '\r') || ('\U{1C}' <= c <= '\U{1F}') || c == ' ' || c == '\U{85}' || c == '\U{A0}'
    || c == '\U{1680}' || ('\U{2000}' <= c <= '\U{200A}') || c == '\U{2028}' || c == '\U{2029}'
    || c == '\U{202F}' || c == '\U{205F}' || c == '\U{3000}'
  }
}
