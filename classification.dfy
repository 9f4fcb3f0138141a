/** Safe versus problematic encodings: a label is safe when it appears in the
    configured `encodingDetector.safeEncodings` list, read afresh and lowered
    on every use. The configuration store is an input: `None` when the
    setting is not configured. */
module Classification {
  import opened Options
  import opened Text

  /** The list used when the setting is not configured. */
  const DefaultSafeEncodings: seq<string> := ["ascii", "utf-8"]

  /** `getSafeEncodings()`: the configured list, or the default, with every
      entry lowered; order and duplicates are kept. */
  function GetSafeEncodings(setting: Option<seq<string>>): seq<string>
  {
    var raw := setting.GetOr(DefaultSafeEncodings);
    seq(|raw|, i requires 0 <= i < |raw| => ToLower(raw[i]))
  }

  /** `!safeEncodings.includes(encoding)`: exact membership. */
  predicate IsProblematic(enc: string, safe: seq<string>) {
    enc !in safe
  }

  /** Every entry of the list read from the setting is lower case. */
  lemma SafeEncodingsAreLower(setting: Option<seq<string>>)
    ensures forall e :: e in GetSafeEncodings(setting) ==> IsLower(e)
  {
    var safe := GetSafeEncodings(setting);
    forall e | e in safe ensures IsLower(e) {
      var i :| 0 <= i < |safe| && safe[i] == e;
      ToLowerIsLower(setting.GetOr(DefaultSafeEncodings)[i]);
    }
  }

  /** A label is problematic exactly when no configured entry equals it once
      the entry is lowered: the setting is matched case-insensitively on its
      side only. */
  lemma ProblematicIffNoEntryMatches(enc: string, setting: Option<seq<string>>)
    ensures IsProblematic(enc, GetSafeEncodings(setting))
        <==> forall e :: e in setting.GetOr(DefaultSafeEncodings) ==> ToLower(e) != enc
  {
    var raw := setting.GetOr(DefaultSafeEncodings);
    var safe := GetSafeEncodings(setting);
    if enc in safe {
      var i :| 0 <= i < |safe| && safe[i] == enc;
      assert raw[i] in raw && ToLower(raw[i]) == enc;
    } else {
      forall e | e in raw ensures ToLower(e) != enc {
        var i :| 0 <= i < |raw| && raw[i] == e;
        assert safe[i] == ToLower(e);
      }
    }
  }

  /** Without a configured list exactly `ascii` and `utf-8` are safe. */
  lemma DefaultClassification(enc: string)
    ensures !IsProblematic(enc, GetSafeEncodings(None)) <==> enc == "ascii" || enc == "utf-8"
  {
    var safe := GetSafeEncodings(None);
    ToLowerOfLower("ascii");
    ToLowerOfLower("utf-8");
    assert safe == ["ascii", "utf-8"];
  }

  /** A label with an upper-case letter is never safe, whatever the setting
      holds. Labels produced by detection are lower case, so this never
      arises for them. */
  lemma UpperCaseLabelIsProblematic(enc: string, setting: Option<seq<string>>)
    requires !IsLower(enc)
    ensures IsProblematic(enc, GetSafeEncodings(setting))
  {
    SafeEncodingsAreLower(setting);
  }
}
