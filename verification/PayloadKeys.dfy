/** Facts about the payload keys of each response type that printing and parsing rely on. */
module PayloadKeys {
  import opened Wrappers
  import opened Packets
  import opened Validate
  import opened Markdown
  import opened FrontMatter
  import Text

  predicate IsPayloadKey(t: ResponseType, k: string) {
    k in RulesFor(t).required || k in RulesFor(t).optional
  }

  predicate NoTwo(k: string) {
    forall i :: 0 <= i < |k| ==> k[i] != '2'
  }

  /** A key without the digit two names no digest. */
  lemma NoTwoNoDigest(k: string)
    requires NoTwo(k)
    ensures !Text.Contains(k, "sha256") && !EndsWith(k, "sha256")
  {
    forall i | 0 <= i <= |k| ensures !Text.PartAt(k, "sha256", i) {
      if i + 6 <= |k| {
        assert k[i..i + 6][3] == k[i + 3];
        assert "sha256"[3] == '2';
      }
    }
    if EndsWith(k, "sha256") {
      assert Text.PartAt(k, "sha256", |k| - 6);
    }
  }

  lemma DigestKeys()
    ensures Text.Contains("content_sha256", "sha256") && EndsWith("content_sha256", "sha256")
    ensures Text.Contains("bundle_sha256", "sha256") && EndsWith("bundle_sha256", "sha256")
  {
    assert Text.PartAt("content_sha256", "sha256", 8);
    assert Text.PartAt("bundle_sha256", "sha256", 7);
  }

  /** Lower-case words joined by underscores. */
  predicate WordKey(k: string) {
    k != "" && forall i :: 0 <= i < |k| ==> 'a' <= k[i] <= 'z' || k[i] == '_'
  }

  lemma ShortWords()
    ensures WordKey("receipt_type") && WordKey("status") && WordKey("ledger_sequence") && WordKey("duplicate")
    ensures WordKey("content") && WordKey("title") && WordKey("plan_id") && WordKey("questions")
    ensures WordKey("executor") && WordKey("executor_run_id") && WordKey("message") && WordKey("percent")
  {
  }

  lemma LongWords()
    ensures WordKey("summary") && WordKey("repository") && WordKey("branch") && WordKey("base_ref")
    ensures WordKey("commit_sha") && WordKey("pull_request_url") && WordKey("limitations") && WordKey("blockers")
    ensures WordKey("error_type") && WordKey("outcome") && WordKey("rationale")
  {
  }

  lemma NotTop()
    ensures "receipt_type" !in TOP_KEYS && "status" !in TOP_KEYS && "ledger_sequence" !in TOP_KEYS
    ensures "duplicate" !in TOP_KEYS && "content" !in TOP_KEYS && "title" !in TOP_KEYS && "plan_id" !in TOP_KEYS
    ensures "questions" !in TOP_KEYS && "executor" !in TOP_KEYS && "message" !in TOP_KEYS && "percent" !in TOP_KEYS
    ensures "body_sha256" !in TOP_KEYS && "bundle_sha256" !in TOP_KEYS
  {
  }

  lemma NotTopEither()
    ensures "summary" !in TOP_KEYS && "repository" !in TOP_KEYS && "branch" !in TOP_KEYS && "base_ref" !in TOP_KEYS
    ensures "commit_sha" !in TOP_KEYS && "pull_request_url" !in TOP_KEYS && "limitations" !in TOP_KEYS
    ensures "blockers" !in TOP_KEYS && "error_type" !in TOP_KEYS && "outcome" !in TOP_KEYS && "rationale" !in TOP_KEYS
  {
  }

  /** A key that is neither a digest nor the acknowledged run. */
  predicate Ordinary(k: string) {
    WordKey(k) && k !in TOP_KEYS
  }

  lemma OrdinaryIn(t: ResponseType, k: string)
    requires IsPayloadKey(t, k) && k != "content_sha256" && k != "bundle_sha256" && k != "executor_run_id"
    requires !t.ExecutionCompleted?
    ensures Ordinary(k)
  {
    ShortWords();
    LongWords();
    NotTop();
    NotTopEither();
  }

  lemma OrdinaryInCompletion(k: string)
    requires IsPayloadKey(ExecutionCompleted, k) && k != "content_sha256"
    ensures Ordinary(k)
  {
    LongWords();
    NotTopEither();
  }

  /** Every payload key is ordinary, one of the two digests, or the run of an acknowledgement. */
  lemma KindsOfKey(t: ResponseType, k: string)
    requires IsPayloadKey(t, k)
    ensures
      || Ordinary(k)
      || k == "content_sha256"
      || k == "bundle_sha256"
      || (k == "executor_run_id" && t.ExecutionAcknowledged?)
  {
    if k != "content_sha256" && k != "bundle_sha256" && k != "executor_run_id" {
      if t.ExecutionCompleted? { OrdinaryInCompletion(k); } else { OrdinaryIn(t, k); }
    }
  }

  lemma WordIsPlain(k: string)
    requires WordKey(k)
    ensures PlainKey(k) && NoTwo(k) && k != "body_sha256" && k != "content_sha256" && k != "bundle_sha256"
  {
    assert "body_sha256"[8] == '2' && "content_sha256"[11] == '2' && "bundle_sha256"[10] == '2';
  }

  lemma DigestsArePlain()
    ensures PlainKey("body_sha256") && PlainKey("bundle_sha256")
  {
  }

  /** What printing and parsing need of a payload key. */
  lemma KeyFacts(t: ResponseType, k: string)
    requires IsPayloadKey(t, k)
    ensures PlainKey(YamlKey(k)) && k != "body_sha256"
    ensures Text.Contains(k, "sha256") <==> EndsWith(k, "sha256")
    ensures EndsWith(k, "sha256") <==> k == "content_sha256" || k == "bundle_sha256"
    ensures YamlKey(k) in TOP_KEYS ==> t.ExecutionAcknowledged? && k == "executor_run_id"
  {
    KindsOfKey(t, k);
    DigestKeys();
    DigestsArePlain();
    NotTop();
    ShortWords();
    if k != "content_sha256" && k != "bundle_sha256" {
      WordIsPlain(k);
      NoTwoNoDigest(k);
    }
  }
}
