/** The user service: creating a user record and editing a user's name, password, songs and playlists. */
module Users {
  import opened Wrappers
  import opened Strings
  import opened Errors
  import opened IdLists

  const PLAYLISTS_NOT_FOUND := "playlists not found: "

  /** The error `bcrypt.hash` rejects with when the data to hash is missing. */
  const HASH_ARGUMENTS_REQUIRED := "data and salt arguments required"

  /**
   * The default picture path of the user entity, as its string literal actually reads: `\r` is a carriage
   * return, and `\s` and `\d` lose their backslash.
   */
  const PROFILE_PIC_AS_WRITTEN := "D:\remaudio v2\remaudiosrcdefault_user.png"

  /** The default picture path the literal evidently means, with its backslashes. */
  const DEFAULT_PROFILE_PIC := "D:" + "\\" + ("remaudio v2" + "\\" + ("remaudio" + "\\" + ("src" + "\\" + "default_user.png")))

  /** A user record; songs and playlists are kept as their ids, in list order. */
  datatype User = User(
    id: nat,
    name: Option<string>,
    email: Option<string>,
    password: string,
    googleId: Option<string>,
    profilePic: Option<string>,
    songs: seq<nat>,
    playlists: seq<nat>,
    updatedAt: Option<int>)

  /**
   * What the sign-up flows pass to `create`. Every field is optional, and nothing validates the body, so the
   * password may be missing.
   */
  datatype CreateUserDto = CreateUserDto(
    name: Option<string>, email: Option<string>, password: Option<string>,
    googleId: Option<string>, profilePic: Option<string>)

  /** The PATCH body; an absent id list counts as an empty one (the service treats both alike). */
  datatype UpdateUserDto = UpdateUserDto(
    name: Option<string>, password: Option<string>,
    songToAdd: seq<nat>, songToRemove: seq<nat>,
    playlistToAdd: seq<nat>, playlistToRemove: seq<nat>)

  /** The literal as written holds two carriage returns and no backslash, so it is not the path it spells. */
  lemma ProfilePicLiteralMangled()
    ensures PROFILE_PIC_AS_WRITTEN[2] == '\r' && PROFILE_PIC_AS_WRITTEN[13] == '\r'
    ensures forall i | 0 <= i < |PROFILE_PIC_AS_WRITTEN| :: PROFILE_PIC_AS_WRITTEN[i] != '\\'
    ensures |PROFILE_PIC_AS_WRITTEN| + 4 == |DEFAULT_PROFILE_PIC|
    ensures PROFILE_PIC_AS_WRITTEN != DEFAULT_PROFILE_PIC
  {
    assert DEFAULT_PROFILE_PIC[2] == '\\';
  }

  /** The corrected default is the Windows path of `default_user.png`, segment by segment. */
  lemma DefaultProfilePicIsPath()
    ensures DEFAULT_PROFILE_PIC == JoinWith(["D:", "remaudio v2", "remaudio", "src", "default_user.png"], "\\")
  {
    var sep := "\\";
    var s4 := ["default_user.png"];
    var s3 := ["src"] + s4;
    var s2 := ["remaudio"] + s3;
    var s1 := ["remaudio v2"] + s2;
    var s0 := ["D:"] + s1;
    assert s3[1..] == s4 && s2[1..] == s3 && s1[1..] == s2 && s0[1..] == s1;
    assert s0 == ["D:", "remaudio v2", "remaudio", "src", "default_user.png"];
    calc {
      JoinWith(s0, sep);
      "D:" + sep + JoinWith(s1, sep);
      "D:" + sep + ("remaudio v2" + sep + JoinWith(s2, sep));
      "D:" + sep + ("remaudio v2" + sep + ("remaudio" + sep + JoinWith(s3, sep)));
      "D:" + sep + ("remaudio v2" + sep + ("remaudio" + sep + ("src" + sep + "default_user.png")));
      DEFAULT_PROFILE_PIC;
    }
  }

  /**
   * The record `create` saves before the table assigns its id: the entity's initial values (no id, no lists,
   * `defaultPic` as the picture), then a truthy Google id and picture, then name, email and the hashed password.
   */
  function NewUser(dto: CreateUserDto, hashed: string, defaultPic: string): User
  {
    User(0, dto.name, dto.email, hashed,
         if Truthy(dto.googleId) then dto.googleId else None,
         if Truthy(dto.profilePic) then dto.profilePic else Some(defaultPic),
         [], [], None)
  }

  /** With the entity's literal as written, a user created without a picture gets a path holding a carriage return. */
  lemma PictureLessUserAsWritten(dto: CreateUserDto, hashed: string)
    requires !Truthy(dto.profilePic)
    ensures NewUser(dto, hashed, PROFILE_PIC_AS_WRITTEN).profilePic == Some(PROFILE_PIC_AS_WRITTEN)
    ensures '\r' in NewUser(dto, hashed, PROFILE_PIC_AS_WRITTEN).profilePic.value
    ensures NewUser(dto, hashed, PROFILE_PIC_AS_WRITTEN).profilePic != Some(DEFAULT_PROFILE_PIC)
  {
    ProfilePicLiteralMangled();
  }

  /** With the corrected default, a user created without a picture gets the backslash-joined path. */
  lemma PictureLessUserCorrected(dto: CreateUserDto, hashed: string)
    requires !Truthy(dto.profilePic)
    ensures NewUser(dto, hashed, DEFAULT_PROFILE_PIC).profilePic
      == Some(JoinWith(["D:", "remaudio v2", "remaudio", "src", "default_user.png"], "\\"))
  {
    DefaultProfilePicIsPath();
  }

  /**
   * The user table, the ids of the song and playlist tables, the next id the user table assigns, and the
   * entity's default picture (PROFILE_PIC_AS_WRITTEN in the code as written, DEFAULT_PROFILE_PIC once corrected).
   */
  class UserService {
    var users: map<nat, User>
    var songIds: set<nat>
    var playlistIds: set<nat>
    var nextId: nat
    const defaultProfilePic: string

    ghost predicate Valid()
      reads this
    {
      forall id | id in users :: id < nextId
    }

    constructor(songIds: set<nat>, playlistIds: set<nat>, defaultProfilePic: string)
      ensures Valid()
      ensures users == map[] && this.songIds == songIds && this.playlistIds == playlistIds
      ensures this.defaultProfilePic == defaultProfilePic
    {
      users := map[];
      this.songIds := songIds;
      this.playlistIds := playlistIds;
      this.defaultProfilePic := defaultProfilePic;
      nextId := 1;
    }

    /**
     * create: hashing a missing password rejects before anything is saved. Otherwise a new user with the given
     * name and email, the hash of the password, a Google id and a picture only when they are given (truthy),
     * and otherwise the entity's default picture (`defaultProfilePic`); saving assigns a new id.
     */
    method Create(dto: CreateUserDto, hash: string -> string) returns (r: Result<User, Exception>)
      requires Valid()
      modifies this
      ensures Valid()
      ensures songIds == old(songIds) && playlistIds == old(playlistIds)
      ensures r.Failure? <==> dto.password.None?
      ensures dto.password.None? ==>
        r == Failure(PlainError(HASH_ARGUMENTS_REQUIRED)) && users == old(users) && nextId == old(nextId)
      ensures dto.password.Some? ==>
        var user := r.value;
        && user.id !in old(users) && users == old(users)[user.id := user]
        && user.name == dto.name && user.email == dto.email && user.password == hash(dto.password.value)
        && user.googleId == (if Truthy(dto.googleId) then dto.googleId else None)
        && user.profilePic == (if Truthy(dto.profilePic) then dto.profilePic else Some(defaultProfilePic))
        && user.songs == [] && user.playlists == [] && user.updatedAt == None
        && user == NewUser(dto, hash(dto.password.value), defaultProfilePic).(id := user.id)
    {
      var user := User(0, None, None, "", None, Some(defaultProfilePic), [], [], None);
      if dto.password.None? {
        return Failure(PlainError(HASH_ARGUMENTS_REQUIRED));
      }
      var hashedPassword := hash(dto.password.value);
      if Truthy(dto.googleId) {
        user := user.(googleId := dto.googleId);
      }
      if Truthy(dto.profilePic) {
        user := user.(profilePic := dto.profilePic);
      }
      user := user.(name := dto.name, email := dto.email, password := hashedPassword);
      user := user.(id := nextId);
      users := users[nextId := user];
      nextId := nextId + 1;
      r := Success(user);
    }

    /**
     * update: an unknown user, or an unknown song or playlist to add, is a 400 and nothing is saved (songs are
     * checked first); otherwise name and password are replaced only when truthy, the password by its hash,
     * and both lists are edited as IdLists.EditIds says.
     */
    method Update(id: nat, dto: UpdateUserDto, hash: string -> string, now: int) returns (r: Result<User, Exception>)
      requires Valid()
      modifies this
      ensures Valid()
      ensures songIds == old(songIds) && playlistIds == old(playlistIds) && nextId == old(nextId)
      ensures id !in old(users) ==>
        r == Failure(BadRequestException("user with " + DecimalString(id) + " not found")) && users == old(users)
      ensures id in old(users) ==>
        var before := old(users)[id];
        var songs := EditIds(before.songs, songIds, dto.songToAdd, dto.songToRemove);
        var playlists := EditIds(before.playlists, playlistIds, dto.playlistToAdd, dto.playlistToRemove);
        if songs.Failure? then
          r == Failure(BadRequestException(SONGS_NOT_FOUND + JoinIds(songs.error))) && users == old(users)
        else if playlists.Failure? then
          r == Failure(BadRequestException(PLAYLISTS_NOT_FOUND + JoinIds(playlists.error))) && users == old(users)
        else
          && r == Success(before.(
               name := if Truthy(dto.name) then dto.name else before.name,
               password := if Truthy(dto.password) then hash(dto.password.value) else before.password,
               songs := songs.value,
               playlists := playlists.value,
               updatedAt := Some(now)))
          && users == old(users)[id := r.value]
    {
      if id !in users {
        return Failure(BadRequestException("user with " + DecimalString(id) + " not found"));
      }
      var user := users[id];
      if Truthy(dto.name) {
        user := user.(name := dto.name);
      }
      if Truthy(dto.password) {
        var hashedPassword := hash(dto.password.value);
        user := user.(password := hashedPassword);
      }
      var songs := EditList(user.songs, songIds, dto.songToAdd, dto.songToRemove);
      if songs.Failure? {
        return Failure(BadRequestException(SONGS_NOT_FOUND + JoinIds(songs.error)));
      }
      user := user.(songs := songs.value);
      var playlists := EditList(user.playlists, playlistIds, dto.playlistToAdd, dto.playlistToRemove);
      if playlists.Failure? {
        return Failure(BadRequestException(PLAYLISTS_NOT_FOUND + JoinIds(playlists.error)));
      }
      user := user.(playlists := playlists.value);
      user := user.(updatedAt := Some(now));
      users := users[id := user];
      return Success(user);
    }
  }
}
