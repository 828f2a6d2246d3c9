/**
 * The best-score board: one integer per mode in a key-value store (localStorage in the
 * browser), read as 0 when the key is absent.
 */
module HighScore {

  const HS_KEY: string := "scottish_highlands_best"
  const HS_HARD_KEY: string := "scottish_highlands_best_hard"

  /** The storage key of the mode's best. */
  function Key(hard: bool): string
  {
    if hard then HS_HARD_KEY else HS_KEY
  }

  /** The two modes keep their bests under different keys. */
  lemma KeysDiffer(hard: bool)
    ensures Key(hard) != Key(!hard)
  {
    assert |HS_KEY| != |HS_HARD_KEY|;
  }

  /** getHighScore: the stored best for the mode, or 0 when nothing is stored. */
  function GetHighScore(store: map<string, int>, hard: bool): int
  {
    if Key(hard) in store then store[Key(hard)] else 0
  }

  /** Whether saveHighScore reports a new record: the score beats the stored best. */
  predicate IsNewRecord(store: map<string, int>, hard: bool, newScore: int)
  {
    newScore > GetHighScore(store, hard)
  }

  /** The store after saveHighScore: written only when the score is a new record. */
  function Saved(store: map<string, int>, hard: bool, newScore: int): map<string, int>
  {
    if IsNewRecord(store, hard, newScore) then store[Key(hard) := newScore] else store
  }

  /** Saving keeps the larger of the old best and the score, and never touches the other mode. */
  lemma SavedKeepsBest(store: map<string, int>, hard: bool, newScore: int)
    // the mode's best becomes the larger of the old best and the score
    ensures GetHighScore(Saved(store, hard, newScore), hard) ==
      if newScore > GetHighScore(store, hard) then newScore else GetHighScore(store, hard)
    // the other mode's record is independent
    ensures GetHighScore(Saved(store, hard, newScore), !hard) == GetHighScore(store, !hard)
    // a score that does not beat the best leaves the store exactly as it was
    ensures !IsNewRecord(store, hard, newScore) ==> Saved(store, hard, newScore) == store
  {
    KeysDiffer(hard);
  }

  /** Saving the same score twice is the same as saving it once. */
  lemma SavedIdempotent(store: map<string, int>, hard: bool, newScore: int)
    ensures Saved(Saved(store, hard, newScore), hard, newScore) == Saved(store, hard, newScore)
  {
  }

  /** The best per mode never decreases, whatever sequence of runs is saved. */
  function SavedAll(store: map<string, int>, hard: bool, scores: seq<int>): map<string, int>
    decreases |scores|
  {
    if scores == [] then store else SavedAll(Saved(store, hard, scores[0]), hard, scores[1..])
  }

  lemma {:induction false} BestNeverDecreases(store: map<string, int>, hard: bool, scores: seq<int>)
    ensures GetHighScore(SavedAll(store, hard, scores), hard) >= GetHighScore(store, hard)
    ensures forall i :: 0 <= i < |scores| ==> GetHighScore(SavedAll(store, hard, scores), hard) >= scores[i]
    ensures GetHighScore(SavedAll(store, hard, scores), !hard) == GetHighScore(store, !hard)
    decreases |scores|
  {
    if scores != [] {
      SavedKeepsBest(store, hard, scores[0]);
      BestNeverDecreases(Saved(store, hard, scores[0]), hard, scores[1..]);
      forall i | 0 <= i < |scores|
        ensures GetHighScore(SavedAll(store, hard, scores), hard) >= scores[i]
      {
        if i > 0 {
          assert scores[i] == scores[1..][i - 1];
        }
      }
    }
  }
}
