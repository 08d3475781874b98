/**
 * The upload side of the server: multer's `fileFilter` decision, the `filename`
 * callback that builds the stored name, and the reply of `POST /api/upload`.
 *
 * The original name is a JavaScript string, i.e. a sequence of UTF-16 code
 * units. The replacement `/[^a-zA-Z0-9.\-]/g` carries no `u` flag, so its
 * character class is matched against one code unit at a time.
 */
module Upload {
  import opened Wrappers
  import opened JsText

  /** The code units the character class `[a-zA-Z0-9.\-]` accepts. */
  predicate IsKept(u: CodeUnit) {
    || (0x61 <= u <= 0x7A)  // a-z
    || (0x41 <= u <= 0x5A)  // A-Z
    || (0x30 <= u <= 0x39)  // 0-9
    || u == 0x2E            // .
    || u == 0x2D            // -
  }

  /** The characters a stored name may contain: the kept ones and `_`. */
  predicate IsStoredChar(c: char) {
    || ('a' <= c <= 'z') || ('A' <= c <= 'Z') || ('0' <= c <= '9')
    || c == '.' || c == '-' || c == '_'
  }

  /** What one code unit becomes in the sanitised name. */
  function SafeChar(u: CodeUnit): (c: char)
    ensures IsStoredChar(c)
  {
    if IsKept(u) then u as int as char else '_'
  }

  /** The index of the next code unit at or after `from` that the negated class matches, or |s|. */
  function NextMatch(s: seq<CodeUnit>, from: nat): (k: nat)
    requires from <= |s|
    ensures from <= k <= |s|
    ensures forall i :: from <= i < k ==> IsKept(s[i])
    ensures k < |s| ==> !IsKept(s[k])
    decreases |s| - from
  {
    if from == |s| || !IsKept(s[from]) then from else NextMatch(s, from + 1)
  }

  /** Copies a run of kept code units, each of which is an ASCII character. */
  function CopyKept(run: seq<CodeUnit>): (r: string)
    requires forall i :: 0 <= i < |run| ==> IsKept(run[i])
    ensures |r| == |run|
    ensures forall i :: 0 <= i < |run| ==> r[i] as int == run[i] as int
  {
    if run == [] then [] else
      assert IsKept(run[0]);
      [run[0] as int as char] + CopyKept(run[1..])
  }

  /**
   * The global replacement from position `from` on, the way
   * `String.prototype.replace` walks a global regular expression: copy the text
   * up to the next match, emit the replacement `_`, continue after the match.
   */
  function ReplaceFrom(s: seq<CodeUnit>, from: nat): (r: string)
    requires from <= |s|
    ensures |r| == |s| - from
    ensures forall i :: from <= i < |s| ==> r[i - from] == SafeChar(s[i])
    decreases |s| - from
  {
    var k := NextMatch(s, from);
    var head := CopyKept(s[from..k]);
    if k == |s| then head
    else
      var tail := ReplaceFrom(s, k + 1);
      assert forall i :: from <= i < |s| ==> (head + ("_" + tail))[i - from] == SafeChar(s[i]) by {
        forall i | from <= i < |s| ensures (head + ("_" + tail))[i - from] == SafeChar(s[i]) {
          if i > k {
            assert (head + ("_" + tail))[i - from] == tail[i - (k + 1)];
          }
        }
      }
      head + ("_" + tail)
  }

  /**
   * `originalname.replace(/[^a-zA-Z0-9.\-]/g, '_')`: the sanitised name has one
   * character per code unit of the original; a code unit in `[a-zA-Z0-9.\-]`
   * stays as it is, every other one becomes `_`.
   */
  function Sanitise(name: seq<CodeUnit>): (r: string)
    ensures |r| == |name|
    ensures forall i :: 0 <= i < |name| ==>
      r[i] == (if IsKept(name[i]) then name[i] as int as char else '_')
  {
    ReplaceFrom(name, 0)
  }

  /** Every character of a sanitised name is in `[a-zA-Z0-9._-]`; in particular it has no `/` or `\`. */
  lemma SanitiseAlphabet(name: seq<CodeUnit>)
    ensures forall i :: 0 <= i < |Sanitise(name)| ==> IsStoredChar(Sanitise(name)[i])
    ensures '/' !in Sanitise(name) && '\\' !in Sanitise(name)
  {
  }

  /** A name already made of `[a-zA-Z0-9._-]` comes through unchanged, and only such a name does. */
  lemma SanitiseFixedPoint(name: string)
    ensures Sanitise(Utf16(name)) == name <==> forall i :: 0 <= i < |name| ==> IsStoredChar(name[i])
  {
    var units := Utf16(name);
    if forall i :: 0 <= i < |name| ==> IsStoredChar(name[i]) {
      Utf16OfBmp(name);
      forall i | 0 <= i < |name| ensures Sanitise(units)[i] == name[i] {
        assert units[i] as int == name[i] as int;
      }
    } else {
      SanitiseAlphabet(units);
    }
  }

  /** Sanitising the sanitised name again changes nothing. */
  lemma SanitiseIdempotent(name: seq<CodeUnit>)
    ensures Sanitise(Utf16(Sanitise(name))) == Sanitise(name)
  {
    var once := Sanitise(name);
    Utf16OfBmp(once);
    var twice := Sanitise(Utf16(once));
    forall i | 0 <= i < |once| ensures twice[i] == once[i] {
      assert Utf16(once)[i] as int == once[i] as int;
    }
  }

  /** Sanitising works code unit by code unit, so it distributes over concatenation. */
  lemma SanitiseAppend(x: seq<CodeUnit>, y: seq<CodeUnit>)
    ensures Sanitise(x + y) == Sanitise(x) + Sanitise(y)
  {
    var xy, sx, sy := Sanitise(x + y), Sanitise(x), Sanitise(y);
    forall i | 0 <= i < |x + y| ensures xy[i] == (sx + sy)[i] {
      if i < |x| {
        assert (x + y)[i] == x[i];
        assert xy[i] == SafeChar(x[i]) == sx[i];
      } else {
        assert (x + y)[i] == y[i - |x|];
        assert xy[i] == SafeChar(y[i - |x|]) == sy[i - |x|];
      }
    }
  }

  /**
   * A character outside the Basic Multilingual Plane is two code units (a
   * surrogate pair, neither of which is kept), hence two underscores, wherever
   * it stands in the name.
   */
  lemma AstralCharacterBecomesTwoUnderscores(before: string, c: char, after: string)
    requires c as int >= 0x1_0000
    ensures Sanitise(Utf16(before + [c] + after)) == Sanitise(Utf16(before)) + "__" + Sanitise(Utf16(after))
  {
    assert Sanitise(Utf16([c])) == "__" by {
      var units := Utf16([c]);
      assert units == EncodeChar(c) + Utf16([]);
      assert !IsKept(units[0]) && !IsKept(units[1]);
    }
    Utf16Append(before + [c], after);
    Utf16Append(before, [c]);
    SanitiseAppend(Utf16(before) + Utf16([c]), Utf16(after));
    SanitiseAppend(Utf16(before), Utf16([c]));
  }

  // ---------------------------------------------------------------------------
  // The stored name
  // ---------------------------------------------------------------------------

  /** An ECMAScript time value in milliseconds, as `Date.now()` returns. */
  type TimeValue = t: int | -8_640_000_000_000_000 <= t <= 8_640_000_000_000_000

  /** Splits a stored name back into its timestamp and its sanitised part. */
  function SplitStoredName(name: string): Option<(int, string)> {
    var k := IndexOf(name, '_');
    if k == |name| then None
    else
      match ParseInteger(name[..k])
      case Some(t) => Some((t, name[k + 1..]))
      case None => None
  }

  /** The decimal form of an integer has no `_`, so the first `_` after it is the separator. */
  lemma SplitAfterInteger(t: int, rest: string)
    ensures SplitStoredName(IntegerToString(t) + "_" + rest) == Some((t, rest))
  {
    var prefix := IntegerToString(t);
    var name := prefix + "_" + rest;
    forall i | 0 <= i < |prefix| ensures prefix[i] != '_' {
      assert IsDigit(prefix[i]) || prefix[i] == '-';
    }
    IndexOfAfter(prefix, '_', rest);
    assert name[..|prefix|] == prefix;
    assert name[|prefix| + 1..] == rest;
    IntegerRoundTrip(t);
  }

  /**
   * `${timestamp}_${safeName}`, the name multer stores the upload under: the
   * decimal timestamp, `_`, and the sanitised original, which can be taken
   * apart again.
   */
  function StoredName(timestamp: TimeValue, originalName: seq<CodeUnit>): (r: string)
    ensures SplitStoredName(r) == Some((timestamp as int, Sanitise(originalName)))
  {
    SplitAfterInteger(timestamp, Sanitise(originalName));
    IntegerToString(timestamp) + "_" + Sanitise(originalName)
  }

  /** Uploads with different timestamps never share a stored name. */
  lemma StoredNamesDifferAcrossTimestamps(t1: TimeValue, n1: seq<CodeUnit>, t2: TimeValue, n2: seq<CodeUnit>)
    requires StoredName(t1, n1) == StoredName(t2, n2)
    ensures t1 == t2 && Sanitise(n1) == Sanitise(n2)
  {
  }

  /**
   * Within one millisecond two different originals can collide: a name with a
   * space and the same name with `_` in its place are stored under the same
   * name, so the timestamp alone does not make a stored name unique.
   */
  lemma SameMillisecondCollision(timestamp: TimeValue, before: string, after: string)
    ensures before + " " + after != before + "_" + after
    ensures StoredName(timestamp, Utf16(before + " " + after)) == StoredName(timestamp, Utf16(before + "_" + after))
  {
    assert (before + " " + after)[|before|] != (before + "_" + after)[|before|];
    assert Utf16(" ") == EncodeChar(' ') + Utf16([]);
    assert Utf16("_") == EncodeChar('_') + Utf16([]);
    Utf16Append(before + " ", after);
    Utf16Append(before, " ");
    Utf16Append(before + "_", after);
    Utf16Append(before, "_");
    SanitiseAppend(Utf16(before) + Utf16(" "), Utf16(after));
    SanitiseAppend(Utf16(before), Utf16(" "));
    SanitiseAppend(Utf16(before) + Utf16("_"), Utf16(after));
    SanitiseAppend(Utf16(before), Utf16("_"));
    assert Sanitise(Utf16(" ")) == Sanitise(Utf16("_"));
  }

  /**
   * A stored name is a single path segment: it is non-empty, uses only
   * `[a-zA-Z0-9._-]` (so no separator), and is neither `.` nor `..`.
   */
  lemma StoredNameIsSegment(timestamp: TimeValue, originalName: seq<CodeUnit>)
    ensures forall i :: 0 <= i < |StoredName(timestamp, originalName)| ==>
      IsStoredChar(StoredName(timestamp, originalName)[i])
    ensures '/' !in StoredName(timestamp, originalName)
    ensures '_' in StoredName(timestamp, originalName)
    ensures StoredName(timestamp, originalName) != "." && StoredName(timestamp, originalName) != ".."
  {
    var prefix := IntegerToString(timestamp);
    var name := StoredName(timestamp, originalName);
    SanitiseAlphabet(originalName);
    forall i | 0 <= i < |name| ensures IsStoredChar(name[i]) {
      if i < |prefix| {
        assert name[i] == prefix[i];
      } else if i > |prefix| {
        assert name[i] == Sanitise(originalName)[i - |prefix| - 1];
      }
    }
    assert name[|prefix|] == '_';
  }

  // ---------------------------------------------------------------------------
  // fileFilter and POST /api/upload
  // ---------------------------------------------------------------------------

  const PdfMimeType: string := "application/pdf"
  const OnlyPdfMessage: string := "只支持 PDF 文件"
  const NoFileMessage: string := "未接收到 PDF 文件"

  datatype FilterDecision = Accept | Reject(message: string)

  /** The `fileFilter`: accept exactly the declared MIME type `application/pdf`. */
  function FileFilter(mimetype: string): (d: FilterDecision)
    ensures d.Accept? <==> mimetype == PdfMimeType
    ensures d.Reject? ==> d.message == OnlyPdfMessage
  {
    if mimetype == PdfMimeType then Accept else Reject(OnlyPdfMessage)
  }

  /** The file part named `pdf` as multer reports it. */
  datatype IncomingFile = IncomingFile(originalName: seq<CodeUnit>, mimetype: string)

  datatype UploadReply =
    | Saved(filename: string, path: string)   // 200, file written under `filename`
    | FilterError(message: string)            // the filter's Error, handed on to Express
    | MissingFile(status: nat, error: string) // 400 from the route itself

  /** `POST /api/upload`: filter, then store under the generated name, then reply. */
  function HandleUpload(file: Option<IncomingFile>, timestamp: TimeValue): (r: UploadReply)
    ensures r.Saved? <==> file.Some? && file.value.mimetype == PdfMimeType
    ensures r.Saved? ==> (r.filename == StoredName(timestamp, file.value.originalName)
                      && r.path == "/uploads/" + r.filename)
    ensures r.FilterError? ==> r.message == OnlyPdfMessage
    ensures r.MissingFile? <==> file.None?
    ensures r.MissingFile? ==> r.status == 400 && r.error == NoFileMessage
  {
    match file
    case None => MissingFile(400, NoFileMessage)
    case Some(f) =>
      match FileFilter(f.mimetype)
      case Reject(message) => FilterError(message)
      case Accept =>
        var filename := StoredName(timestamp, f.originalName);
        Saved(filename, "/uploads/" + filename)
  }

  /** The public path of a saved upload is `/uploads/` followed by exactly one path segment. */
  lemma SavedPathIsOneSegment(file: Option<IncomingFile>, timestamp: TimeValue)
    requires HandleUpload(file, timestamp).Saved?
    ensures var r := HandleUpload(file, timestamp);
      r.path[..9] == "/uploads/" && '/' !in r.path[9..] && r.path[9..] == r.filename
  {
    var r := HandleUpload(file, timestamp);
    StoredNameIsSegment(timestamp, file.value.originalName);
    assert r.path[9..] == r.filename;
  }
}
