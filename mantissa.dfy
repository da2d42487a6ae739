/** The numeric "correction" applied to every coordinate of the world bound
    (convert_to_float, nested in _get_vertex_bbox). A coordinate is rendered
    as text; when the text contains an 'e' only the part before the first 'e'
    is parsed back, so the exponent is silently dropped. The coordinate type,
    its text rendering and the parser are left abstract. */
module Mantissa {
  import opened Errors
  import opened Geometry

  /** The text before the first 'e' of `s`, or all of `s` when it has none
      (Python's `s.split("e")[0]`). */
  function MantissaText(s: string): (r: string)
    ensures r <= s
    ensures 'e' !in r
    ensures |r| < |s| <==> 'e' in s
    ensures |r| < |s| ==> s[|r|] == 'e'
  {
    if s == [] then []
    else if s[0] == 'e' then []
    else [s[0]] + MantissaText(s[1..])
  }

  /** The mantissa text is the only prefix of `s` that stops at the first 'e'
      (or at the end when there is none). */
  lemma MantissaTextUnique(s: string, p: string)
    requires p <= s && 'e' !in p
    requires |p| == |s| || s[|p|] == 'e'
    ensures MantissaText(s) == p
  {
    var r := MantissaText(s);
    if |r| < |p| {
      assert false;
    } else if |p| < |r| {
      assert false;
    }
  }

  /** Whatever the exponent text, it is dropped: the mantissa text of
      "<m>e<x>" is "<m>". */
  lemma MantissaDropsExponent(m: string, x: string)
    requires 'e' !in m
    ensures MantissaText(m + "e" + x) == m
  {
    var s := m + "e" + x;
    assert s[|m|] == 'e';
    assert m <= s;
    MantissaTextUnique(s, m);
  }

  /** convert_to_float: a coordinate whose rendering has no 'e' is returned
      unchanged; otherwise the text before the first 'e' is parsed, and a
      parse failure is the failure. */
  function ConvertToFloat<C>(number: C, render: C -> string, parse: string -> Option<C>): (r: Result<C>)
    ensures 'e' !in render(number) ==> r == Success(number)
    ensures 'e' in render(number) ==>
              r.Success? == parse(MantissaText(render(number))).Some? &&
              (r.Success? ==> r.value == parse(MantissaText(render(number))).value)
    ensures r.Failure? ==> r.error == NotANumber(MantissaText(render(number)))
  {
    var text := render(number);
    if 'e' in text then
      match parse(MantissaText(text))
      case Some(v) => Success(v)
      case None => Failure(NotANumber(MantissaText(text)))
    else
      Success(number)
  }

  /** The magnitude is lost: two coordinates whose renderings share a mantissa
      and differ only in their exponents (1.2e-05 and 1.2e+20, say) are
      corrected to the same value, the parse of the bare mantissa. */
  lemma ConvertDropsMagnitude<C>(a: C, b: C, render: C -> string, parse: string -> Option<C>,
                                 m: string, xa: string, xb: string)
    requires 'e' !in m
    requires render(a) == m + "e" + xa && render(b) == m + "e" + xb
    ensures ConvertToFloat(a, render, parse) == ConvertToFloat(b, render, parse)
    ensures parse(m).Some? ==> ConvertToFloat(a, render, parse) == Success(parse(m).value)
  {
    assert render(a)[|m|] == 'e';
    assert render(b)[|m|] == 'e';
    MantissaDropsExponent(m, xa);
    MantissaDropsExponent(m, xb);
  }

  /** The list comprehension over a Vec3: each coordinate is converted on its
      own, in x, y, z order, and the first failure is reported. */
  function CorrectVec<C>(v: Vec3<C>, render: C -> string, parse: string -> Option<C>): (r: Result<Vec3<C>>)
    ensures r.Success? <==>
              ConvertToFloat(v.x, render, parse).Success? &&
              ConvertToFloat(v.y, render, parse).Success? &&
              ConvertToFloat(v.z, render, parse).Success?
    ensures r.Success? ==>
              r.value == Vec3(ConvertToFloat(v.x, render, parse).value,
                              ConvertToFloat(v.y, render, parse).value,
                              ConvertToFloat(v.z, render, parse).value)
    ensures r.Failure? ==>
              r.error == (if ConvertToFloat(v.x, render, parse).Failure? then ConvertToFloat(v.x, render, parse).error
                          else if ConvertToFloat(v.y, render, parse).Failure? then ConvertToFloat(v.y, render, parse).error
                          else ConvertToFloat(v.z, render, parse).error)
  {
    match ConvertToFloat(v.x, render, parse)
    case Failure(e) => Failure(e)
    case Success(x) =>
      match ConvertToFloat(v.y, render, parse)
      case Failure(e) => Failure(e)
      case Success(y) =>
        match ConvertToFloat(v.z, render, parse)
        case Failure(e) => Failure(e)
        case Success(z) => Success(Vec3(x, y, z))
  }

  /** A vector none of whose coordinates renders with an exponent passes
      through the correction untouched. */
  lemma CorrectVecPlain<C>(v: Vec3<C>, render: C -> string, parse: string -> Option<C>)
    requires 'e' !in render(v.x) && 'e' !in render(v.y) && 'e' !in render(v.z)
    ensures CorrectVec(v, render, parse) == Success(v)
  {
  }
}
