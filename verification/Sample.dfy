/** The run that the runs in which a guarantee fails are about. */
module Sample {
  import opened Options
  import opened Clock
  import opened TaskRuns

  const ID := "r"
  const TEN: Time := 10 * SECOND

  // It starts at instant 0 and has a TTL of a second.
  function First(): TaskRun {
    NewRun(ID, "job", "", 0, Some(1))
  }
}
