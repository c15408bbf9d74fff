/**
 * The preview dialog of src/components/resume/file-preview.tsx: a zoom factor
 * clamped to 0.5..3 in steps of 0.2, a rotation in quarter turns, a reset,
 * and the choice of icon and of the mock PDF page by the file's MIME type.
 * The zoom factor is an exact `real`, where the component uses a float.
 */
module FilePreview {
  import opened Strings

  const MIN_SCALE := 0.5
  const MAX_SCALE := 3.0
  const ZOOM_STEP := 0.2
  const QUARTER_TURN := 90
  const FULL_TURN := 360

  /** JavaScript's `%`, whose result takes the sign of the dividend. */
  function JsRemainder(a: int, b: int): (r: int)
    requires b > 0
    ensures a >= 0 ==> r == a % b
    ensures -b < r < b
  {
    if a >= 0 then a % b else -((-a) % b)
  }

  /** The view state. */
  datatype View = View(scale: real, rotation: int)

  const INITIAL := View(1.0, 0)

  datatype Control = ZoomIn | ZoomOut | Rotate | Reset

  /** What one control does to the view. */
  function Apply(v: View, c: Control): (w: View)
    ensures c == ZoomIn ==> w.rotation == v.rotation && w.scale == (if v.scale + ZOOM_STEP < MAX_SCALE then v.scale + ZOOM_STEP else MAX_SCALE)
    ensures c == ZoomOut ==> w.rotation == v.rotation && w.scale == (if v.scale - ZOOM_STEP > MIN_SCALE then v.scale - ZOOM_STEP else MIN_SCALE)
    ensures c == Rotate ==> w.scale == v.scale && w.rotation == JsRemainder(v.rotation + QUARTER_TURN, FULL_TURN)
    ensures c == Reset ==> w == INITIAL
  {
    match c
    case ZoomIn => v.(scale := if v.scale + ZOOM_STEP < MAX_SCALE then v.scale + ZOOM_STEP else MAX_SCALE)
    case ZoomOut => v.(scale := if v.scale - ZOOM_STEP > MIN_SCALE then v.scale - ZOOM_STEP else MIN_SCALE)
    case Rotate => v.(rotation := JsRemainder(v.rotation + QUARTER_TURN, FULL_TURN))
    case Reset => INITIAL
  }

  /** The controls pressed in order. Pressing them from a view within bounds keeps the view within bounds. */
  function ApplyAll(v: View, cs: seq<Control>): (r: View)
    ensures Reachable(v) ==> Reachable(r)
    decreases |cs|
  {
    if cs == [] then v
    else ApplyAll(Apply(v, cs[0]), cs[1..])
  }

  /** The views reachable from the initial one: scale in 0.5..3, rotation a whole number of quarter turns below 360. */
  predicate Reachable(v: View) {
    MIN_SCALE <= v.scale <= MAX_SCALE && v.rotation in {0, 90, 180, 270}
  }

  lemma InitialReachable()
    ensures Reachable(INITIAL)
  {
  }

  /** Every control keeps the view within bounds. */
  lemma ApplyKeepsBounds(v: View, c: Control)
    requires Reachable(v)
    ensures Reachable(Apply(v, c))
  {
  }

  /** One more control acts on the view the earlier ones left. */
  lemma {:induction false} ApplyAllSnoc(v: View, cs: seq<Control>, c: Control)
    ensures ApplyAll(v, cs + [c]) == Apply(ApplyAll(v, cs), c)
    decreases |cs|
  {
    if cs == [] {
      assert cs + [c] == [c];
      assert [c][1..] == [];
    } else {
      ApplyAllSnoc(Apply(v, cs[0]), cs[1..], c);
      assert (cs + [c])[1..] == cs[1..] + [c];
    }
  }

  /** Four quarter turns are the identity on a view within bounds. */
  lemma FourRotations(v: View)
    requires Reachable(v)
    ensures ApplyAll(v, [Rotate, Rotate, Rotate, Rotate]) == v
  {
    var cs := [Rotate, Rotate, Rotate, Rotate];
    assert cs[1..] == [Rotate, Rotate, Rotate];
    assert cs[1..][1..] == [Rotate, Rotate];
    assert cs[1..][1..][1..] == [Rotate];
    assert cs[1..][1..][1..][1..] == [];
  }

  /** Reset brings back the initial view after any sequence of controls. */
  lemma ResetRestores(v: View, cs: seq<Control>)
    ensures Apply(ApplyAll(v, cs), Reset) == INITIAL
  {
  }

  /** The preview's state, updated by its four buttons. */
  class Preview {
    var scale: real
    var rotation: int

    function Current(): View
      reads this
    {
      View(scale, rotation)
    }

    constructor ()
      ensures Current() == INITIAL
    {
      scale, rotation := 1.0, 0;
    }

    /** `zoomIn`. */
    method ZoomInButton()
      modifies this
      ensures Current() == Apply(old(Current()), ZoomIn)
    {
      scale := if scale + ZOOM_STEP < MAX_SCALE then scale + ZOOM_STEP else MAX_SCALE;
    }

    /** `zoomOut`. */
    method ZoomOutButton()
      modifies this
      ensures Current() == Apply(old(Current()), ZoomOut)
    {
      scale := if scale - ZOOM_STEP > MIN_SCALE then scale - ZOOM_STEP else MIN_SCALE;
    }

    /** `rotate`. */
    method RotateButton()
      modifies this
      ensures Current() == Apply(old(Current()), Rotate)
    {
      rotation := JsRemainder(rotation + QUARTER_TURN, FULL_TURN);
    }

    /** `reset`. */
    method ResetButton()
      modifies this
      ensures Current() == INITIAL
    {
      scale := 1.0;
      rotation := 0;
    }
  }

  datatype Icon = PdfIcon | ImageIcon | DocumentIcon

  /** `getFileIcon`: the PDF test comes before the image test, anything else gets the plain document icon. */
  function FileIcon(mimeType: string): (i: Icon)
    ensures i == PdfIcon <==> Contains(mimeType, "pdf")
    ensures i == ImageIcon <==> !Contains(mimeType, "pdf") && Contains(mimeType, "image")
  {
    if Contains(mimeType, "pdf") then PdfIcon
    else if Contains(mimeType, "image") then ImageIcon
    else DocumentIcon
  }

  /** Whether the dialog shows the mock PDF page: exactly for the files that get the PDF icon. */
  function ShowsPdfPage(mimeType: string): (b: bool)
    ensures b <==> FileIcon(mimeType) == PdfIcon
  {
    Contains(mimeType, "pdf")
  }

  /** A type naming both wins for PDF: `image/pdf` gets the PDF icon. */
  lemma PdfBeforeImage()
    ensures FileIcon("image/pdf") == PdfIcon
  {
    var t := "image/pdf";
    assert OccursAt(t, "pdf", 6) by { assert t[6..9] == "pdf"; }
    OccursContains(t, "pdf", 6);
  }
}
