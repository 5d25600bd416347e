/** Values shared by the endpoints and hooks of the biodegradation app. */
module Types {

  datatype Option<+T> = None | Some(value: T)

  /** A `numeric(5, 2)` decimal held exactly, as a whole number of hundredths. */
  type Hundredths = int

  /**
   * One biodegradation sample as the page and the change feed see it
   * (the `BiodegradationSample` interface; the `biodegradation` table's columns).
   */
  datatype Sample = Sample(
    sampleId: int,
    materialType: string,
    environment: string,
    timeDays: int,
    degradationPct: Hundredths,
    temperatureC: Hundredths,
    humidityPct: Hundredths)

  /** An authenticated session and its user, as the auth helpers hand them out; opaque here. */
  datatype Session = Session(accessToken: string)
  datatype User = User(id: string)

  /** A store client handle; only its presence matters to the model. */
  datatype Client = Client(url: string)

  /** The per-request `event.locals` record that the hooks fill in and the endpoints read. */
  class Locals {
    var supabase: Option<Client>
    var session: Option<Session>
    var user: Option<User>

    constructor ()
      ensures supabase == None && session == None && user == None
    {
      supabase, session, user := None, None, None;
    }
  }

  predicate StartsWith(s: string, prefix: string)
  {
    |prefix| <= |s| && s[..|prefix|] == prefix
  }

  predicate EndsWith(s: string, suffix: string)
  {
    |suffix| <= |s| && s[|s| - |suffix|..] == suffix
  }
}
