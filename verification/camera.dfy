/**
 * The part of the camera service the create page relies on: the name under which a captured
 * photo is saved, and the displayable string built from a saved photo. Taking the picture,
 * fetching it, converting it to base64 and writing the file are device I/O and are not modelled;
 * the app's private file area is a map from file name to base64 content.
 */
module Camera {
  import opened Wrappers

  /** The MIME prefix that turns base64 content into an embeddable image source. */
  const JPEG_DATA_URL_PREFIX: string := "data:image/jpeg;base64,"

  function Digit(d: nat): (c: char)
    requires d < 10
    ensures '0' <= c <= '9'
  {
    "0123456789"[d]
  }

  function DigitValue(c: char): nat {
    if '0' <= c <= '9' then (c as int - '0' as int) else 0
  }

  /** The decimal text of a non-negative number, as JavaScript's number-to-string gives it. */
  function Decimal(n: nat): (s: string)
    ensures |s| > 0
    ensures forall i :: 0 <= i < |s| ==> '0' <= s[i] <= '9'
    decreases n
  {
    if n < 10 then [Digit(n)] else Decimal(n / 10) + [Digit(n % 10)]
  }

  /** The number a string of decimal digits stands for. */
  function DecimalValue(s: string): nat
    decreases |s|
  {
    if s == [] then 0 else 10 * DecimalValue(s[..|s| - 1]) + DigitValue(s[|s| - 1])
  }

  /** Reading the decimal text back gives the number. */
  lemma {:induction false} DecimalRoundTrip(n: nat)
    ensures DecimalValue(Decimal(n)) == n
    decreases n
  {
    var s := Decimal(n);
    if n < 10 {
      assert s[..0] == [];
    } else {
      DecimalRoundTrip(n / 10);
      assert s[..|s| - 1] == Decimal(n / 10);
      assert DigitValue(s[|s| - 1]) == n % 10;
    }
  }

  /** `new Date().getTime() + '.jpeg'`: the name of the file a capture at `time` is saved as. */
  function FileName(time: nat): string {
    Decimal(time) + ".jpeg"
  }

  /** A file name is never empty, so it always passes a truthiness test. */
  lemma FileNameNonEmpty(time: nat)
    ensures |FileName(time)| > 5
  {
  }

  /** Captures at different times are saved under different names. */
  lemma FileNameInjective(a: nat, b: nat)
    requires FileName(a) == FileName(b)
    ensures a == b
  {
    var sa, sb := Decimal(a), Decimal(b);
    assert |sa| == |sb|;
    assert sa == FileName(a)[..|sa|];
    assert sb == FileName(b)[..|sb|];
    DecimalRoundTrip(a);
    DecimalRoundTrip(b);
  }

  /** `crearRutaALaFotoBase64`: the data URL of a saved photo, or the empty string when the file
      cannot be read. The result is empty exactly when the file is missing, and otherwise the
      file's content follows the prefix. */
  function Displayable(files: map<string, string>, name: string): (r: string)
    ensures r == [] <==> name !in files
    ensures name in files ==>
      |r| >= |JPEG_DATA_URL_PREFIX| && r[..|JPEG_DATA_URL_PREFIX|] == JPEG_DATA_URL_PREFIX
      && r[|JPEG_DATA_URL_PREFIX|..] == files[name]
  {
    if name in files then JPEG_DATA_URL_PREFIX + files[name] else ""
  }

  /** The camera service's public state: the name of the last saved photo. */
  class CameraService {
    var rutaFoto: Option<string>

    constructor()
      ensures rutaFoto == None
    {
      rutaFoto := None;
    }

    /** `tomarFoto` with the capture left out: the photo taken at `time` is saved under
        `FileName(time)`, which becomes the service's `rutaFoto` and is returned. */
    method TomarFoto(time: nat) returns (name: string)
      modifies this
      ensures name == FileName(time) && rutaFoto == Some(name)
    {
      var nombreArchivo := FileName(time);
      rutaFoto := Some(nombreArchivo);
      name := rutaFoto.value;
    }
  }
}
