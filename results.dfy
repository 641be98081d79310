/**
 * What a feedback callback hands back to the host: packed colours, the
 * advanced result (`{}` or a text with optional colours) and the `#` name
 * template the column callbacks apply.
 */
module Results {
  import opened Wrappers
  import opened Text

  /** `combineRgb(r, g, b)`: one byte per channel, red highest. */
  function CombineRgb(r: nat, g: nat, b: nat): (c: nat)
    requires r < 256 && g < 256 && b < 256
    ensures c < 0x100_0000
  {
    r * 0x1_0000 + g * 0x100 + b
  }

  /** The channels read back from the packed colour. */
  lemma CombineRgbChannels(r: nat, g: nat, b: nat)
    requires r < 256 && g < 256 && b < 256
    ensures var c := CombineRgb(r, g, b);
      c / 0x1_0000 == r && c / 0x100 % 0x100 == g && c % 0x100 == b
  {
    var c := CombineRgb(r, g, b);
    assert c == r * 0x1_0000 + (g * 0x100 + b) && g * 0x100 + b < 0x1_0000;
    assert c == (r * 0x100 + g) * 0x100 + b && b < 0x100;
  }

  /** `combineRgb(0, 0, 0)`. */
  const Black: int := 0x00_0000

  /** `combineRgb(0, 255, 0)`. */
  const Green: int := 0x00_FF00

  /** `combineRgb(0, 255, 255)`. */
  const Cyan: int := 0x00_FFFF

  /** An advanced feedback result: the empty object `{}`, or a text (which
      may itself be `undefined`) with optional background and text colours. */
  datatype Advanced = Empty | Styled(text: Option<string>, bgcolor: Option<int>, color: Option<int>)

  /** A plain text result, without colours. */
  function Plain(text: Option<string>): Advanced
  {
    Styled(text, None, None)
  }

  /** `name.replace('#', n.toString())`: the first `#` of the name becomes
      the number; a name without one is shown as it is. */
  function Template(name: string, n: int): (r: string)
    ensures '#' !in name ==> r == name
    ensures '#' in name ==> var i := FirstIndex(name, '#');
      r == name[..i] + IntToString(n) + name[i + 1..]
  {
    ReplaceFirstSpec(name, '#', IntToString(n));
    ReplaceFirst(name, '#', IntToString(n))
  }

  /** `text?.replace('#', n.toString())`: an absent name stays absent. */
  function TemplateIfPresent(text: Option<string>, n: int): (r: Option<string>)
    ensures r.Some? <==> text.Some?
    ensures r.Some? ==> r.value == Template(text.value, n)
  {
    if text.Some? then Some(Template(text.value, n)) else None
  }
}
