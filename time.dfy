/** The wall clock, outside the model: any reading is possible. */
module Time {

  class Clock {
    constructor ()
    {
    }

    /** time.Now().UTC().Unix() */
    method UnixSeconds() returns (t: int)
    {
      t := *;
    }

    /** time.Now().UnixNano() / int64(time.Millisecond) */
    method UnixMillis() returns (t: int)
    {
      t := *;
    }
  }
}
