/** The alias tables as shipped, and the proof that they satisfy what the filter and preset
    normalisers ask of them. */
module FilterWords {
  import opened Common
  import opened FilterValues
  import opened PresetNormalizer
  import opened Text

  const UNSUBMITTED: set<string> := {"available", "not_submitted", "pending_submit"}
  const SUBMITTING: set<string> := {"submitted", "processing", "pending", "polling"}
  const PAID: set<string> := {"success", "completed"}
  const TIMEOUT: set<string> := {"manual_review", "unknown_submit"}
  const FAILED: set<string> := {"fail", "error"}
  const UPLOADED: set<string> := {"true", "uploaded", "exists"}
  const NOT_UPLOADED: set<string> := {
    "false", "not_uploaded", "unknown", "not_found", "deleted_exact_match", "cross_workspace_only", "ambiguous", "unreachable"}
  const YES: set<string> := {"true", "1", "yes", "on", "generated", "succeeded"}
  const NO: set<string> := {"false", "0", "no", "off", "not_generated", "never"}
  const FIXED: set<string> := {"fixed", "accounts", "account_ids", "selected", "selection"}

  function Standing(keys: set<string>, value: string): map<string, string> {
    map k | k in keys :: value
  }

  const SUBMIT: map<string, string> :=
    Standing(UNSUBMITTED, "unsubmitted") + Standing(SUBMITTING, "submitting") + Standing(PAID, "paid")
    + Standing(TIMEOUT, "timeout") + Standing(FAILED, "failed")

  const UPLOAD: map<string, string> := Standing(UPLOADED, "uploaded") + Standing(NOT_UPLOADED, "not_uploaded")

  const SHIPPED := Words(SUBMIT, UPLOAD, YES, NO, FIXED)

  /** Small letters and underscores only. */
  predicate Simple(s: string) {
    s != "" && |s| <= MAX_WORD && forall i :: 0 <= i < |s| ==> 'a' <= s[i] <= 'z' || s[i] == '_'
  }

  lemma SimpleIsWord(s: string)
    requires Simple(s)
    ensures Word(s) && Lower(s) == s
  {
    assert forall i :: 0 <= i < |s| ==> Lower(s)[i] == s[i];
  }

  /** No key of the submit table has the length and first letter of a canonical state. */
  predicate KeyShape(k: string) {
    |k| != 11 && |k| != 6 && !(|k| == 10 && k[0] == 's') && !(|k| == 4 && k[0] == 'p') && !(|k| == 7 && k[0] == 't')
  }

  lemma SubmitKeys(k: string)
    requires k in UNSUBMITTED || k in SUBMITTING || k in PAID || k in TIMEOUT || k in FAILED
    ensures KeyShape(k)
  {
  }

  predicate Canonical(v: string) {
    v == "unsubmitted" || v == "submitting" || v == "paid" || v == "timeout" || v == "failed"
  }

  lemma CanonicalShape(v: string)
    requires Canonical(v)
    ensures !KeyShape(v) && Simple(v)
  {
  }

  lemma SubmitValue(k: string)
    requires k in SUBMIT
    ensures Canonical(SUBMIT[k])
    ensures k in UNSUBMITTED || k in SUBMITTING || k in PAID || k in TIMEOUT || k in FAILED
  {
  }

  lemma SubmitSteady(k: string)
    requires k in SUBMIT
    ensures Word(SUBMIT[k]) && Lower(SUBMIT[k]) == SUBMIT[k] && SUBMIT[k] !in SUBMIT
  {
    var v := SUBMIT[k];
    SubmitValue(k);
    CanonicalShape(v);
    SimpleIsWord(v);
    if v in SUBMIT {
      SubmitValue(v);
      SubmitKeys(v);
    }
  }

  lemma UploadedIsNoOther()
    ensures "uploaded" in UPLOADED && "uploaded" !in NOT_UPLOADED && "not_uploaded" in NOT_UPLOADED
  {
    forall k | k in NOT_UPLOADED ensures |k| != 8 {
    }
  }

  lemma UploadSteady(k: string)
    requires k in UPLOAD
    ensures var v := UPLOAD[k]; Word(v) && Lower(v) == v && v in UPLOAD && UPLOAD[v] == v
  {
    UploadedIsNoOther();
    var v := UPLOAD[k];
    assert v == "uploaded" || v == "not_uploaded";
    assert Simple(v);
    SimpleIsWord(v);
  }

  lemma YesNoSteady(t: string)
    ensures t == "true" ==> Word(t) && Lower(t) == t && t in YES
    ensures t == "false" ==> Word(t) && Lower(t) == t && t in NO && t !in YES
  {
    if t == "true" || t == "false" {
      assert Simple(t);
      SimpleIsWord(t);
    }
    forall k | k in YES ensures |k| != 5 {
    }
  }

  lemma ShippedSubmit()
    ensures SubmitWords(SHIPPED)
  {
    forall k | k in SUBMIT ensures Word(SUBMIT[k]) && Lower(SUBMIT[k]) == SUBMIT[k] && SUBMIT[k] !in SUBMIT {
      SubmitSteady(k);
    }
  }

  lemma ShippedUpload()
    ensures UploadWords(SHIPPED)
  {
    forall k | k in UPLOAD
      ensures Word(UPLOAD[k]) && Lower(UPLOAD[k]) == UPLOAD[k] && UPLOAD[k] in UPLOAD && UPLOAD[UPLOAD[k]] == UPLOAD[k]
    {
      UploadSteady(k);
    }
  }

  lemma ShippedYesNo()
    ensures YesNoWords(SHIPPED)
  {
    forall t: string
      ensures t == "true" ==> Word(t) && Lower(t) == t && t in YES
      ensures t == "false" ==> Word(t) && Lower(t) == t && t in NO && t !in YES
    {
      YesNoSteady(t);
    }
  }

  lemma ShippedModes()
    ensures ModesSteady(SHIPPED)
  {
    forall m | m in FIXED ensures |m| != 7 {
    }
  }

  /** The shipped tables satisfy what the normalisers ask of them. */
  lemma ShippedWordsSteady()
    ensures WordsSteady(SHIPPED) && ModesSteady(SHIPPED)
  {
    ShippedSubmit();
    ShippedUpload();
    ShippedYesNo();
    ShippedModes();
  }

  // ---------------------------------------------------------------- the tables, word by word

  lemma SubmitGroupsApart(k: string)
    ensures k in UNSUBMITTED ==> k !in SUBMITTING && k !in PAID && k !in TIMEOUT && k !in FAILED
    ensures k in SUBMITTING ==> k !in PAID && k !in TIMEOUT && k !in FAILED
    ensures k in PAID ==> k !in TIMEOUT && k !in FAILED
    ensures k in TIMEOUT ==> k !in FAILED
  {
  }

  lemma SubmitByGroup(k: string)
    ensures k in SUBMIT <==> k in UNSUBMITTED || k in SUBMITTING || k in PAID || k in TIMEOUT || k in FAILED
    ensures k in UNSUBMITTED ==> SUBMIT[k] == "unsubmitted"
    ensures k in SUBMITTING ==> SUBMIT[k] == "submitting"
    ensures k in PAID ==> SUBMIT[k] == "paid"
    ensures k in TIMEOUT ==> SUBMIT[k] == "timeout"
    ensures k in FAILED ==> SUBMIT[k] == "failed"
  {
    SubmitGroupsApart(k);
  }

  /** What the shipped table makes of each submit state: nothing else is an alias. */
  lemma SubmitMeans(k: string)
    requires k in SHIPPED.submit
    ensures SHIPPED.submit[k] == "unsubmitted" ==> k in {"available", "not_submitted", "pending_submit"}
    ensures SHIPPED.submit[k] == "submitting" ==> k in {"submitted", "processing", "pending", "polling"}
    ensures SHIPPED.submit[k] == "paid" ==> k in {"success", "completed"}
    ensures SHIPPED.submit[k] == "timeout" ==> k in {"manual_review", "unknown_submit"}
    ensures SHIPPED.submit[k] == "failed" ==> k in {"fail", "error"}
  {
    SubmitByGroup(k);
  }

  lemma SubmitKeysAre()
    ensures SHIPPED.submit.Keys == UNSUBMITTED + SUBMITTING + PAID + TIMEOUT + FAILED
  {
    forall k: string ensures k in SHIPPED.submit.Keys <==> k in UNSUBMITTED + SUBMITTING + PAID + TIMEOUT + FAILED {
      SubmitByGroup(k);
    }
  }

  /** And each of these is one. */
  lemma SubmitAliases(k: string)
    ensures k in {"available", "not_submitted", "pending_submit"} ==> k in SHIPPED.submit
    ensures k in {"submitted", "processing", "pending", "polling"} ==> k in SHIPPED.submit
    ensures k in {"success", "completed"} || k in {"manual_review", "unknown_submit"} || k in {"fail", "error"} ==> k in SHIPPED.submit
  {
    SubmitByGroup(k);
  }

  lemma UploadGroupsApart(k: string)
    ensures k in UPLOADED ==> k !in NOT_UPLOADED
  {
  }

  /** And of each upload state; the words for yes, for no, and for a fixed preset. */
  lemma UploadMeans(k: string)
    ensures k in SHIPPED.upload <==>
      k in {"true", "uploaded", "exists", "false", "not_uploaded", "unknown", "not_found", "deleted_exact_match",
            "cross_workspace_only", "ambiguous", "unreachable"}
    ensures k in {"true", "uploaded", "exists"} ==> k in SHIPPED.upload && SHIPPED.upload[k] == "uploaded"
    ensures k in SHIPPED.upload && k !in {"true", "uploaded", "exists"} ==> SHIPPED.upload[k] == "not_uploaded"
    ensures k in SHIPPED.yes <==> k in {"true", "1", "yes", "on", "generated", "succeeded"}
    ensures k in SHIPPED.no <==> k in {"false", "0", "no", "off", "not_generated", "never"}
    ensures k in SHIPPED.fixed <==> k in {"fixed", "accounts", "account_ids", "selected", "selection"}
  {
    UploadGroupsApart(k);
  }
}
