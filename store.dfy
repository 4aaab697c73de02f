/**
 * The profile store client, as a fake that answers from a fixed configuration and records every
 * call it receives. Fetching fails for users it does not hold; publishing fails for users it
 * rejects. The network transport is not modelled.
 */
module Store {
  import opened Outcomes
  import opened Schema
  import opened Groups

  /** The store's answers: the profiles it holds, the users whose publish it rejects, and the signer its secret store hands out. */
  datatype StoreConfig = StoreConfig(profiles: map<string, Profile>, rejected: set<string>, signer: Signer)

  /** One publish call: the user id it was sent for and the profile sent. */
  datatype Publish = Publish(userId: string, profile: Profile)

  /** The calls received so far, oldest first. */
  datatype StoreLog = StoreLog(fetched: seq<string>, published: seq<Publish>)

  class FakeStore {
    const config: StoreConfig
    var log: StoreLog

    constructor (config: StoreConfig)
      ensures this.config == config && log == StoreLog([], [])
    {
      this.config := config;
      log := StoreLog([], []);
    }

    /** Fetches a profile by user id; the call is recorded whether or not it succeeds. */
    method GetUserBy(userId: string) returns (r: Result<Profile>)
      modifies this
      ensures log == old(log).(fetched := old(log).fetched + [userId])
      ensures r == if userId in config.profiles then Ok(config.profiles[userId]) else Err(FetchFailed(userId))
    {
      log := log.(fetched := log.fetched + [userId]);
      r := if userId in config.profiles then Ok(config.profiles[userId]) else Err(FetchFailed(userId));
    }

    /** Publishes an updated profile; the call is recorded whether or not it succeeds. */
    method UpdateUser(userId: string, profile: Profile) returns (r: Result<()>)
      modifies this
      ensures log == old(log).(published := old(log).published + [Publish(userId, profile)])
      ensures r == if userId in config.rejected then Err(PublishFailed(userId)) else Ok(())
    {
      log := log.(published := log.published + [Publish(userId, profile)]);
      r := if userId in config.rejected then Err(PublishFailed(userId)) else Ok(());
    }
  }
}
