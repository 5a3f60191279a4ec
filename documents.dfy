/**
 * The documents page's checklist: `smartDocumentMatch` decides whether an uploaded file name
 * stands for a required document, by keyword tables and a substring fallback, and a checklist
 * item is ticked when some uploaded document matches it.
 */
module Documents {
  import opened Common
  import opened Strings
  import Schema
  import Seqs

  /** A `Record<string, V>` literal, as its entries in source order. */
  type Table<V> = seq<(string, V)>

  /** `table[key]`: the value of the first entry with that key, if any. */
  function Lookup<V>(table: Table<V>, key: string): (r: Option<V>)
    ensures r.None? <==> forall i :: 0 <= i < |table| ==> table[i].0 != key
    ensures r.Some? ==> exists i :: 0 <= i < |table| && table[i] == (key, r.value)
  {
    if table == [] then None
    else if table[0].0 == key then Some(table[0].1)
    else
      var r := Lookup(table[1..], key);
      assert forall i :: 1 <= i < |table| ==> table[i] == table[1..][i - 1];
      r
  }

  /** `docPatterns`: the keywords that stand for each pattern. */
  const DocPatterns: Table<seq<string>> := [
    ("photo", ["photo", "passport", "recent", "profile_pic", "profilepic", "pp", "pic"]),
    ("signature", ["signature", "sign", "sig"]),
    ("thumb", ["thumb", "fingerprint", "impression", "thumbprint"]),
    ("10th", ["10th", "tenth", "matriculation", "sslc", "board_exam", "x_", "class_10"]),
    ("12th", ["12th", "twelfth", "intermediate", "hsc", "class_12", "senior_secondary"]),
    ("graduation", ["graduation", "degree", "bachelor", "btech", "bca", "bsc", "bcom", "ba", "graduate", "diploma"]),
    ("caste", ["caste", "sc", "st", "obc", "ur", "general", "category", "reservation"]),
    ("ews", ["ews", "economically", "weaker"]),
    ("pwd", ["pwd", "disability", "handicap", "medical", "certificate", "ph", "difabled"]),
    ("experience", ["experience", "work_exp", "workexp", "employment", "job_letter", "certificate_of_experience"]),
    ("identity", ["identity", "aadhaar", "aadhar", "pan", "voter", "passport", "dl", "driving", "license", "id", "proof"]),
    ("ncc", ["ncc", "national_cadet"]),
    ("domicile", ["domicile", "residence", "inhabitant"]),
    ("serviceman", ["serviceman", "ex_service", "exservice", "discharge", "service", "military", "armed"])
  ]

  /** `exactMatches`: the patterns of each lower-cased checklist label. */
  const ExactMatches: Table<seq<string>> := [
    ("photo (recent passport size)", ["photo"]),
    ("signature", ["signature"]),
    ("thumb impression (if required)", ["thumb"]),
    ("10th marksheet / certificate", ["10th"]),
    ("12th marksheet / certificate", ["12th"]),
    ("graduation certificate / diploma", ["graduation", "diploma"]),
    ("caste / ews / pwd certificates", ["caste", "ews", "pwd"]),
    ("experience certificate (if applicable)", ["experience"]),
    ("identity proof scan (aadhaar / pan / voter id / passport / dl)", ["identity", "aadhaar", "pan", "voter", "passport", "dl"])
  ]

  /** What the regular expression `/\.[^/.]+$/` matches: a non-empty run free of '.' and '/'. */
  predicate IsExtension(e: string) {
    e != [] && forall i :: 0 <= i < |e| ==> e[i] != '.' && e[i] != '/'
  }

  /** The length of the longest suffix of `s` free of '.' and '/'. */
  function TailRun(s: string): (n: nat)
    ensures n <= |s|
    ensures forall i :: |s| - n <= i < |s| ==> s[i] != '.' && s[i] != '/'
    ensures n < |s| ==> s[|s| - n - 1] == '.' || s[|s| - n - 1] == '/'
  {
    if s == [] || s[|s| - 1] == '.' || s[|s| - 1] == '/' then 0 else 1 + TailRun(s[..|s| - 1])
  }

  /** The run conditions pin the run down: any suffix meeting them is the longest one. */
  lemma TailRunUnique(s: string, k: nat)
    requires k <= |s|
    requires forall i :: |s| - k <= i < |s| ==> s[i] != '.' && s[i] != '/'
    requires k < |s| ==> s[|s| - k - 1] == '.' || s[|s| - k - 1] == '/'
    ensures TailRun(s) == k
  {
  }

  /** `name.replace(/\.[^/.]+$/, "")`: the final `.ext` removed, and only that. */
  function StripExtension(s: string): (r: string)
    ensures |r| <= |s| && r == s[..|r|]
    ensures r != s ==> s == r + "." + s[|r| + 1..] && IsExtension(s[|r| + 1..])
  {
    var n := TailRun(s);
    if 0 < n < |s| && s[|s| - n - 1] == '.' then
      assert s == s[..|s| - n - 1] + "." + s[|s| - n..];
      s[..|s| - n - 1]
    else s
  }

  /** Exactly the one extension at the end is removed, whatever dots the base holds. */
  lemma StripExtensionOf(base: string, ext: string)
    requires IsExtension(ext)
    ensures StripExtension(base + "." + ext) == base
  {
    var s := base + "." + ext;
    assert forall i :: |s| - |ext| <= i < |s| ==> s[i] == ext[i - |base| - 1];
    TailRunUnique(s, |ext|);
    assert s[..|s| - |ext| - 1] == base;
  }

  /** A name without a dot keeps its full length. */
  lemma StripExtensionNoDot(s: string)
    requires '.' !in s
    ensures StripExtension(s) == s
  {
  }

  /** `docPatterns[pattern] || [pattern]`: an unlisted pattern is its own keyword. */
  function PatternKeywords(pattern: string): (r: seq<string>)
    ensures Lookup(DocPatterns, pattern).None? ==> r == [pattern]
    ensures Lookup(DocPatterns, pattern).Some? ==> r == Lookup(DocPatterns, pattern).value
  {
    Lookup(DocPatterns, pattern).GetOr([pattern])
  }

  /** `exactMatches[reqDoc] || []`. */
  function LabelPatterns(reqDoc: string): (r: seq<string>)
    ensures Lookup(ExactMatches, reqDoc).None? ==> r == []
    ensures Lookup(ExactMatches, reqDoc).Some? ==> r == Lookup(ExactMatches, reqDoc).value
  {
    Lookup(ExactMatches, reqDoc).GetOr([])
  }

  /** The inner loop: some keyword is a substring of the name. */
  function AnyKeyword(fileName: string, keywords: seq<string>): (r: bool)
    ensures r <==> exists j :: 0 <= j < |keywords| && Includes(fileName, keywords[j])
  {
    if keywords == [] then false
    else if Includes(fileName, keywords[0]) then true
    else
      var r := AnyKeyword(fileName, keywords[1..]);
      assert forall j :: 1 <= j < |keywords| ==> keywords[j] == keywords[1..][j - 1];
      r
  }

  /** The outer loop: some keyword of some pattern is a substring of the name. */
  function AnyPattern(fileName: string, patterns: seq<string>): (r: bool)
    ensures r <==> exists i, j :: 0 <= i < |patterns| && 0 <= j < |PatternKeywords(patterns[i])|
                                   && Includes(fileName, PatternKeywords(patterns[i])[j])
  {
    if patterns == [] then false
    else if AnyKeyword(fileName, PatternKeywords(patterns[0])) then true
    else
      var r := AnyPattern(fileName, patterns[1..]);
      assert forall i :: 1 <= i < |patterns| ==> patterns[i] == patterns[1..][i - 1];
      r
  }

  /** Trimming adds no character. */
  lemma TrimKeepsOut(s: string, c: char)
    requires c !in s
    ensures c !in Trim(s)
  {
    var r := Trim(s);
    var a: nat :| OccursAt(s, r, a);
    forall k | 0 <= k < |r| ensures r[k] != c {
      assert r[k] == s[a + k];
    }
  }

  /** `reqDoc.split("/")[0].trim().substring(0, 10)`. */
  function FallbackKey(reqDoc: string): (r: string)
    ensures |r| <= 10 && '/' !in r
    ensures StartsWith(Trim(BeforeFirst(reqDoc, '/')), r)
    ensures |Trim(BeforeFirst(reqDoc, '/'))| <= 10 ==> r == Trim(BeforeFirst(reqDoc, '/'))
    ensures |Trim(BeforeFirst(reqDoc, '/'))| > 10 ==> |r| == 10
  {
    var t := Trim(BeforeFirst(reqDoc, '/'));
    TrimKeepsOut(BeforeFirst(reqDoc, '/'), '/');
    Seqs.Prefix(t, 10)
  }

  /** The matching of an already lower-cased, extension-free name against a lower-cased label. */
  function MatchesName(fileName: string, reqDoc: string): (r: bool)
    ensures r <==> || (exists i, j :: 0 <= i < |LabelPatterns(reqDoc)| && 0 <= j < |PatternKeywords(LabelPatterns(reqDoc)[i])|
                                       && Includes(fileName, PatternKeywords(LabelPatterns(reqDoc)[i])[j]))
                   || Includes(fileName, FallbackKey(reqDoc))
  {
    AnyPattern(fileName, LabelPatterns(reqDoc)) || Includes(fileName, FallbackKey(reqDoc))
  }

  /** `smartDocumentMatch(uploadedFileName, requiredDocType)`. */
  function SmartDocumentMatch(uploadedFileName: string, requiredDocType: string): bool {
    MatchesName(StripExtension(Lower(uploadedFileName)), Lower(requiredDocType))
  }

  /** Only the lower-cased forms matter: case never changes the verdict. */
  lemma CaseInsensitive(uploadedFileName: string, requiredDocType: string)
    ensures SmartDocumentMatch(uploadedFileName, requiredDocType)
         == SmartDocumentMatch(Lower(uploadedFileName), Lower(requiredDocType))
  {
    LowerIdempotent(uploadedFileName);
    LowerIdempotent(requiredDocType);
  }

  /** Lower-casing keeps an extension an extension. */
  lemma LowerExtension(ext: string)
    requires IsExtension(ext)
    ensures IsExtension(Lower(ext))
  {
  }

  /**
   * The extension takes no part: a keyword that appears only after the final dot matches
   * nothing, since the verdict is that of the name without it.
   */
  lemma ExtensionIgnored(base: string, ext: string, requiredDocType: string)
    requires IsExtension(ext)
    ensures SmartDocumentMatch(base + "." + ext, requiredDocType) == MatchesName(Lower(base), Lower(requiredDocType))
  {
    LowerConcat(base + ".", ext);
    LowerConcat(base, ".");
    assert Lower(".") == ".";
    LowerExtension(ext);
    StripExtensionOf(Lower(base), Lower(ext));
  }

  /** For a listed item, one keyword of one of its patterns found in the name is enough. */
  lemma ListedKeywordMatches(uploadedFileName: string, requiredDocType: string, pattern: string, keyword: string)
    requires pattern in LabelPatterns(Lower(requiredDocType))
    requires keyword in PatternKeywords(pattern)
    requires Includes(StripExtension(Lower(uploadedFileName)), keyword)
    ensures SmartDocumentMatch(uploadedFileName, requiredDocType)
  {
    var ps := LabelPatterns(Lower(requiredDocType));
    var i :| 0 <= i < |ps| && ps[i] == pattern;
    var j :| 0 <= j < |PatternKeywords(pattern)| && PatternKeywords(pattern)[j] == keyword;
    assert Includes(StripExtension(Lower(uploadedFileName)), PatternKeywords(ps[i])[j]);
  }

  /** For a label `exactMatches` does not list, only the fallback substring decides. */
  lemma UnlistedLabelUsesFallback(uploadedFileName: string, requiredDocType: string)
    requires Lookup(ExactMatches, Lower(requiredDocType)).None?
    ensures SmartDocumentMatch(uploadedFileName, requiredDocType)
        <==> Includes(StripExtension(Lower(uploadedFileName)), FallbackKey(Lower(requiredDocType)))
  {
  }

  /** An unlisted label that is blank before its first '/' matches every file name. */
  lemma BlankFallbackMatchesAll(uploadedFileName: string, requiredDocType: string)
    requires Lookup(ExactMatches, Lower(requiredDocType)).None?
    requires Trim(BeforeFirst(Lower(requiredDocType), '/')) == ""
    ensures SmartDocumentMatch(uploadedFileName, requiredDocType)
  {
    IncludesEmpty(StripExtension(Lower(uploadedFileName)));
  }

  /** "aadhaar", a pattern of the identity label without a table entry, stands for itself. */
  lemma AadhaarIsOwnKeyword()
    ensures PatternKeywords("aadhaar") == ["aadhaar"]
  {
    assert forall i :: 0 <= i < |DocPatterns| ==> |DocPatterns[i].0| != 7;
  }

  /** The "Signature" label is listed, and its one pattern brings the keywords "sign" and "sig". */
  lemma SignatureLabelIsListed()
    ensures LabelPatterns(Lower("Signature")) == ["signature"]
    ensures PatternKeywords("signature") == ["signature", "sign", "sig"]
  {
    assert Lower("Signature") == "signature";
  }

  /** A file whose base name contains "sig", in any case, ticks the "Signature" item. */
  lemma SigMatchesSignature(base: string, ext: string)
    requires IsExtension(ext)
    requires Includes(Lower(base), "sig")
    ensures SmartDocumentMatch(base + "." + ext, "Signature")
  {
    ExtensionIgnored(base, ext, "Signature");
    SignatureLabelIsListed();
    assert PatternKeywords(LabelPatterns(Lower("Signature"))[0])[2] == "sig";
  }

  /** The checklist the page renders: the schema's required documents. */
  const ChecklistLabels: seq<string> := [
    "Photo (Recent Passport Size)", "Signature", "Thumb Impression (if required)",
    "10th Marksheet / Certificate", "12th Marksheet / Certificate",
    "Graduation Certificate / Diploma", "Caste / EWS / PwD certificates",
    "Experience certificate (if applicable)",
    "Identity proof scan (Aadhaar / PAN / Voter ID / Passport / DL)"
  ]

  lemma ChecklistIsRequiredDocuments()
    ensures ChecklistLabels == Schema.RequiredDocuments
  {
  }

  /** `documents.some(d => smartDocumentMatch(d.name, doc))`. */
  function IsUploaded(documents: seq<Schema.Document>, item: string): (r: bool)
    ensures r <==> exists i :: 0 <= i < |documents| && SmartDocumentMatch(documents[i].info.name, item)
  {
    Seqs.Any(documents, (d: Schema.Document) => SmartDocumentMatch(d.info.name, item))
  }

  /** The ticks of the rendered checklist, item by item. */
  function Checklist(documents: seq<Schema.Document>): (r: seq<bool>)
    ensures |r| == |ChecklistLabels|
    ensures forall k :: 0 <= k < |r| ==>
      (r[k] <==> exists i :: 0 <= i < |documents| && SmartDocumentMatch(documents[i].info.name, ChecklistLabels[k]))
  {
    seq(|ChecklistLabels|, k requires 0 <= k < |ChecklistLabels| => IsUploaded(documents, ChecklistLabels[k]))
  }

  /** Uploading one more document never clears a tick. */
  lemma UploadKeepsTicks(documents: seq<Schema.Document>, d: Schema.Document, item: string)
    requires IsUploaded(documents, item)
    ensures IsUploaded(documents + [d], item)
  {
    var i :| 0 <= i < |documents| && SmartDocumentMatch(documents[i].info.name, item);
    assert (documents + [d])[i] == documents[i];
  }

  /** Lower-casing a literal, character by character. */
  lemma LowerLit(s: string, t: string)
    requires |s| == |t|
    requires forall i :: 0 <= i < |s| ==> LowerChar(s[i]) == t[i]
    ensures Lower(s) == t
  {
  }

  /** A key some entry carries is found, whichever entry carries it first. */
  lemma {:induction false} LookupFindsKey<V>(table: Table<V>, i: nat)
    requires i < |table|
    ensures Lookup(table, table[i].0).Some?
  {
    if table[0].0 != table[i].0 {
      LookupFindsKey(table[1..], i - 1);
    }
  }

  // One lemma per label keeps each literal's lower-casing in a proof context of its own.

  lemma LowerPhotoLabel()
    ensures Lower("Photo (Recent Passport Size)") == "photo (recent passport size)"
  {
    LowerLit("Photo (Recent Passport Size)", "photo (recent passport size)");
  }

  lemma LowerSignatureLabel()
    ensures Lower("Signature") == "signature"
  {
    LowerLit("Signature", "signature");
  }

  lemma LowerThumbLabel()
    ensures Lower("Thumb Impression (if required)") == "thumb impression (if required)"
  {
    LowerLit("Thumb Impression (if required)", "thumb impression (if required)");
  }

  lemma LowerTenthLabel()
    ensures Lower("10th Marksheet / Certificate") == "10th marksheet / certificate"
  {
    LowerLit("10th Marksheet / Certificate", "10th marksheet / certificate");
  }

  lemma LowerTwelfthLabel()
    ensures Lower("12th Marksheet / Certificate") == "12th marksheet / certificate"
  {
    LowerLit("12th Marksheet / Certificate", "12th marksheet / certificate");
  }

  lemma LowerGraduationLabel()
    ensures Lower("Graduation Certificate / Diploma") == "graduation certificate / diploma"
  {
    LowerLit("Graduation Certificate / Diploma", "graduation certificate / diploma");
  }

  lemma LowerCasteLabel()
    ensures Lower("Caste / EWS / PwD certificates") == "caste / ews / pwd certificates"
  {
    LowerLit("Caste / EWS / PwD certificates", "caste / ews / pwd certificates");
  }

  lemma LowerExperienceLabel()
    ensures Lower("Experience certificate (if applicable)") == "experience certificate (if applicable)"
  {
    LowerLit("Experience certificate", "experience certificate");
    LowerLit(" (if applicable)", " (if applicable)");
    LowerConcat("Experience certificate", " (if applicable)");
    ExperienceLabelHalves();
  }

  lemma ExperienceLabelHalves()
    ensures "Experience certificate" + " (if applicable)" == "Experience certificate (if applicable)"
    ensures "experience certificate" + " (if applicable)" == "experience certificate (if applicable)"
  {
  }

  lemma LowerIdentityLabel()
    ensures Lower("Identity proof scan (Aadhaar / PAN / Voter ID / Passport / DL)")
         == "identity proof scan (aadhaar / pan / voter id / passport / dl)"
  {
    LowerIdentityHead();
    LowerIdentityTail();
    LowerConcat("Identity proof scan (Aadhaar / ", "PAN / Voter ID / Passport / DL)");
    IdentityLabelHalves();
    IdentityKeyHalves();
  }

  lemma LowerIdentityHead()
    ensures Lower("Identity proof scan (Aadhaar / ") == "identity proof scan (aadhaar / "
  {
    LowerLit("Identity proof scan (Aadhaar / ", "identity proof scan (aadhaar / ");
  }

  lemma LowerIdentityTail()
    ensures Lower("PAN / Voter ID / Passport / DL)") == "pan / voter id / passport / dl)"
  {
    LowerLit("PAN / Voter ID / Passport / DL)", "pan / voter id / passport / dl)");
  }

  lemma IdentityLabelHalves()
    ensures "Identity proof scan (Aadhaar / " + "PAN / Voter ID / Passport / DL)"
         == "Identity proof scan (Aadhaar / PAN / Voter ID / Passport / DL)"
  {
  }

  lemma IdentityKeyHalves()
    ensures "identity proof scan (aadhaar / " + "pan / voter id / passport / dl)"
         == "identity proof scan (aadhaar / pan / voter id / passport / dl)"
  {
  }

  /** The k-th checklist label, lower-cased, is the k-th key of `exactMatches`. */
  lemma LowerLabel(k: nat)
    requires k < |ChecklistLabels|
    ensures |ExactMatches| == |ChecklistLabels|
    ensures Lower(ChecklistLabels[k]) == ExactMatches[k].0
  {
    if k == 0 {
      LowerPhotoLabel();
    } else if k == 1 {
      LowerSignatureLabel();
    } else if k == 2 {
      LowerThumbLabel();
    } else if k == 3 {
      LowerTenthLabel();
    } else if k == 4 {
      LowerTwelfthLabel();
    } else if k == 5 {
      LowerGraduationLabel();
    } else if k == 6 {
      LowerCasteLabel();
    } else if k == 7 {
      LowerExperienceLabel();
    } else {
      LowerIdentityLabel();
    }
  }

  /** Every checklist label, lower-cased, is a key of `exactMatches`: no item relies on the fallback. */
  lemma ChecklistLabelsAreListed()
    ensures forall k :: 0 <= k < |ChecklistLabels| ==> Lookup(ExactMatches, Lower(ChecklistLabels[k])).Some?
  {
    forall k | 0 <= k < |ChecklistLabels|
      ensures Lookup(ExactMatches, Lower(ChecklistLabels[k])).Some?
    {
      LowerLabel(k);
      LookupFindsKey(ExactMatches, k);
    }
  }
}
