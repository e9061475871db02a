/** What a checkpoint says of each record, and what it may be relied on for. */
module SavedRecords {
  import opened Programs

  /** A saved record: its answer, and the answers of its dependencies as written beside it. */
  datatype Saved = Saved(answer: Answer, untracked: bool, deps: map<Key, Answer>)

  type Checkpoint = map<Key, Saved>

  function AnswersIn(c: Checkpoint): map<Key, Answer> {
    map k | k in c :: c[k].answer
  }

  ghost predicate AnswersOf(t: Trace, deps: map<Key, Answer>) {
    && |t.keys| == |t.answers| && (forall d :: d in deps <==> d in t.keys)
    && forall i :: 0 <= i < |t.keys| ==> deps[t.keys[i]] == t.answers[i]
  }

  /** The saved value is the body applied to the dependency answers saved with it. */
  ghost predicate SavedSound(prog: Prog, k: Key, s: Saved) {
    k.id in prog && exists t :: Replays(prog[k.id], t, s.answer) && AnswersOf(t, s.deps)
  }

  /** Every tracked query was saved with the value its body makes of the answers beside it. */
  ghost predicate AllSound(prog: Prog, manifest: Checkpoint) {
    forall k :: k in manifest && k.Query? && !manifest[k].untracked ==> SavedSound(prog, k, manifest[k])
  }

  /** A checkpoint that has been loaded: queries only, sound, numbered after what they depend on. */
  ghost predicate CheckpointOk(prog: Prog, c: Checkpoint, order: map<Key, nat>) {
    AllSound(prog, c) && forall k :: k in c ==> k.Query? && k in order && DepsBelow(c, order, k)
  }

  ghost predicate DepsBelow(c: Checkpoint, order: map<Key, nat>, k: Key)
    requires k in c && k in order
  {
    forall d :: d in c[k].deps ==> !d.Ambient? && (d in c ==> d in order && order[d] < order[k])
  }

  lemma SavedAt(prog: Prog, c: Checkpoint, order: map<Key, nat>, q: Key)
    requires CheckpointOk(prog, c, order) && q in c
    ensures q in order && q.Query? && (!c[q].untracked ==> SavedSound(prog, q, c[q]))
    ensures q in AnswersIn(c) && AnswersIn(c)[q] == c[q].answer
    ensures forall d :: d in c[q].deps ==> !d.Ambient? && (d in c ==> d in order && order[d] < order[q])
  {
    assert DepsBelow(c, order, q);
  }
}
