/** The approved test commands and how required names select them (app/agents/testing.py). */
module TestCommands {
  import opened Ordering
  import opened Records

  datatype Profile = Profile(image: string, command: seq<string>)

  const COMMANDS: map<string, Profile> := map[
    "pytest" := Profile("python", ["pytest"]),
    "python -m pytest" := Profile("python", ["python", "-m", "pytest"]),
    "python -m unittest" := Profile("python", ["python", "-m", "unittest", "discover"]),
    "npm test" := Profile("node", ["npm", "test"]),
    "npm run test" := Profile("node", ["npm", "run", "test"]),
    "npm run lint" := Profile("node", ["npm", "run", "lint"]),
    "pnpm test" := Profile("node", ["pnpm", "test"]),
    "yarn test" := Profile("node", ["yarn", "test"]),
    "go test" := Profile("go", ["go", "test", "./..."]),
    "cargo test" := Profile("rust", ["cargo", "test"])
  ]

  // The command line without its spaces tells the names apart.
  lemma CommandsInjective(a: string, b: string)
    requires a in COMMANDS && b in COMMANDS && COMMANDS[a].command == COMMANDS[b].command
    ensures a == b
  {
  }

  predicate Approved(required: seq<string>) {
    required != [] && forall n | n in required :: n in COMMANDS
  }

  function Profiles(names: seq<string>): seq<Profile>
    requires forall n :: n in names ==> n in COMMANDS
  {
    seq(|names|, i requires 0 <= i < |names| => COMMANDS[names[i]])
  }

  datatype Selection = Selected(profiles: seq<Profile>) | NotAllowed

  class TestAgent {
    const allowed: set<string>

    constructor (allowed: set<string>)
      requires allowed <= COMMANDS.Keys
      ensures this.allowed == allowed
    {
      this.allowed := allowed;
    }

    // Required checks are all run, each once, whatever the model suggested.
    method Select(required: seq<string>) returns (r: Selection)
      requires allowed <= COMMANDS.Keys
      ensures r.Selected? <==> forall n :: n in required ==> n in allowed
      ensures r.Selected? ==> forall n :: n in Dedup(required) ==> n in COMMANDS
      ensures r.Selected? ==> r.profiles == Profiles(Dedup(required))
    {
      if exists n | n in required :: n !in allowed {
        return NotAllowed;
      }
      var names, profiles: seq<Profile>, i := [], [], 0;
      while i < |required|
        invariant 0 <= i <= |required|
        invariant names == Dedup(required[..i])
        invariant forall n :: n in names ==> n in COMMANDS
        invariant profiles == Profiles(names)
      {
        assert required[..i + 1][..i] == required[..i];
        if required[i] !in names {
          names, profiles := names + [required[i]], profiles + [COMMANDS[required[i]]];
        }
        i := i + 1;
      }
      assert required[..i] == required;
      r := Selected(profiles);
    }
  }
}
