/**
 * The mood-music player: a fixed table of moods and their audio assets, a
 * six-channel volume mixer, the arc flag of the pie volume control, and
 * the player state that the generate and stop buttons change. The audio
 * library's calls are not modelled; whether each one succeeds is given by
 * the caller as an AudioResult.
 */
module MoodMixer {
  import opened Wrappers

  datatype Mode = Happy | Sad | Peaceful | Energetic | Meditation

  /** One row of the mode table; `audio` names the bundled asset. */
  datatype ModeEntry = ModeEntry(id: Mode, title: string, description: string, audio: string, icon: string)

  const HappyAsset := "../../assets/music/happy.mp3"
  const SadAsset := "../../assets/music/sad.mp3"
  const MeditationAsset := "../../assets/music/meditation.mp3"

  /** The mode table, in display order. Peaceful and energetic reuse the sad track. */
  const Modes: seq<ModeEntry> := [
    ModeEntry(Happy, "Happy", "Upbeat and cheerful", HappyAsset, "emoticon-happy"),
    ModeEntry(Sad, "Sad", "Melancholic and emotional", SadAsset, "emoticon-sad"),
    ModeEntry(Peaceful, "Peaceful", "Calm and relaxing", SadAsset, "peace"),
    ModeEntry(Energetic, "Energetic", "Dynamic and powerful", SadAsset, "lightning-bolt"),
    ModeEntry(Meditation, "Meditation", "Zen and mindful", MeditationAsset, "meditation")
  ]

  /** The position of the first entry for mode m, if there is one. */
  function FindIndex(entries: seq<ModeEntry>, m: Mode): (r: Option<nat>)
    ensures r.Some? ==> r.value < |entries| && entries[r.value].id == m
    ensures r.Some? ==> forall j :: 0 <= j < r.value ==> entries[j].id != m
    ensures r.None? ==> forall j :: 0 <= j < |entries| ==> entries[j].id != m
  {
    if |entries| == 0 then None
    else if entries[0].id == m then Some(0)
    else
      var r := FindIndex(entries[1..], m);
      if r.Some? then Some(r.value + 1) else None
  }

  /**
   * The asset played for a mode: the audio of its table entry, or the
   * happy track when there is no entry or the entry names no asset.
   */
  function AssetFor(m: Mode): (asset: string)
    ensures FindIndex(Modes, m).None? ==> asset == HappyAsset
    ensures FindIndex(Modes, m).Some? && Modes[FindIndex(Modes, m).value].audio != "" ==>
      asset == Modes[FindIndex(Modes, m).value].audio
  {
    var i := FindIndex(Modes, m);
    if i.Some? && Modes[i.value].audio != "" then Modes[i.value].audio else HappyAsset
  }

  /** Every mode has an entry, so the fallback is never used; the table's assets. */
  lemma AssetTable()
    ensures forall m :: FindIndex(Modes, m).Some?
    ensures AssetFor(Happy) == HappyAsset && AssetFor(Sad) == SadAsset
    ensures AssetFor(Peaceful) == SadAsset && AssetFor(Energetic) == SadAsset
    ensures AssetFor(Meditation) == MeditationAsset
  {
    forall m ensures FindIndex(Modes, m).Some? {
      match m
      case Happy => assert Modes[0].id == m;
      case Sad => assert Modes[1].id == m;
      case Peaceful => assert Modes[2].id == m;
      case Energetic => assert Modes[3].id == m;
      case Meditation => assert Modes[4].id == m;
    }
  }

  // ---------------------------------------------------------------------
  // The mixer

  /** A mixer channel: one per mood, plus the master volume. */
  datatype Channel = MoodChannel(mode: Mode) | Master

  datatype Volumes = Volumes(happy: real, sad: real, peaceful: real, energetic: real,
                             meditation: real, master: real)

  /** The volume of one channel. */
  function Level(v: Volumes, c: Channel): real
  {
    match c
    case MoodChannel(Happy) => v.happy
    case MoodChannel(Sad) => v.sad
    case MoodChannel(Peaceful) => v.peaceful
    case MoodChannel(Energetic) => v.energetic
    case MoodChannel(Meditation) => v.meditation
    case Master => v.master
  }

  /** The mixer starts with every channel at full volume. */
  const InitialVolumes := Volumes(1.0, 1.0, 1.0, 1.0, 1.0, 1.0)

  /** The mixer with channel c set to x and every other channel kept. */
  function WithVolume(v: Volumes, c: Channel, x: real): (r: Volumes)
    ensures Level(r, c) == x
    ensures forall d :: d != c ==> Level(r, d) == Level(v, d)
  {
    match c
    case MoodChannel(Happy) => v.(happy := x)
    case MoodChannel(Sad) => v.(sad := x)
    case MoodChannel(Peaceful) => v.(peaceful := x)
    case MoodChannel(Energetic) => v.(energetic := x)
    case MoodChannel(Meditation) => v.(meditation := x)
    case Master => v.(master := x)
  }

  /** The volume a mode's track is played at: its channel scaled by the master. */
  function PlaybackVolume(v: Volumes, m: Mode): real
  {
    Level(v, MoodChannel(m)) * Level(v, Master)
  }

  /** Every channel between silent and full, as the pie controls set them. */
  ghost predicate InUnitRange(v: Volumes)
  {
    forall c :: 0.0 <= Level(v, c) <= 1.0
  }

  lemma InitialVolumesFull(m: Mode)
    ensures InUnitRange(InitialVolumes)
    ensures PlaybackVolume(InitialVolumes, m) == 1.0
  {
    assert Level(InitialVolumes, MoodChannel(m)) == 1.0 by { match m case _ => }
  }

  /** Setting a channel to a value in [0, 1] keeps the whole mixer in [0, 1]. */
  lemma WithVolumeInUnitRange(v: Volumes, c: Channel, x: real)
    requires InUnitRange(v) && 0.0 <= x <= 1.0
    ensures InUnitRange(WithVolume(v, c, x))
  {
  }

  /** With every channel in [0, 1], the playback volume is in [0, 1] and at most its channel. */
  lemma PlaybackVolumeInUnitRange(v: Volumes, m: Mode)
    requires InUnitRange(v)
    ensures 0.0 <= PlaybackVolume(v, m) <= Level(v, MoodChannel(m)) <= 1.0
  {
    var a, b := Level(v, MoodChannel(m)), Level(v, Master);
    assert 0.0 <= a <= 1.0 && 0.0 <= b <= 1.0;
    assert 0.0 <= a * b;
    assert a * (1.0 - b) >= 0.0;
    assert a * b == a - a * (1.0 - b);
  }

  /**
   * A mode's playback volume depends on its own channel and the master
   * alone: changing any other channel leaves it as it was; a silent channel
   * or a silent master silences it.
   */
  lemma PlaybackVolumeChannels(v: Volumes, c: Channel, x: real, m: Mode)
    ensures c != MoodChannel(m) && c != Master ==> PlaybackVolume(WithVolume(v, c, x), m) == PlaybackVolume(v, m)
    ensures Level(v, Master) == 0.0 || Level(v, MoodChannel(m)) == 0.0 ==> PlaybackVolume(v, m) == 0.0
  {
  }

  // ---------------------------------------------------------------------
  // The pie volume control

  /** The SVG large-arc flag of the pie arc: set when more than half the circle is filled. */
  function LargeArcFlag(value: real): (flag: nat)
    ensures flag <= 1
    ensures flag == 1 <==> value > 0.5
  {
    if value > 0.5 then 1 else 0
  }

  // ---------------------------------------------------------------------
  // The player

  datatype SoundStatus = Loaded | Playing | Unloaded

  /** A sound object of the audio library: its asset, volume and state. */
  datatype Sound = Sound(asset: string, volume: real, status: SoundStatus)

  /** Which of the audio library's calls succeed during one generate. */
  datatype AudioResult = AudioResult(unloadOk: bool, createOk: bool, volumeOk: bool, playOk: bool)

  const GenerateErrorMessage := "An error occurred while generating music."

  /** The held sound after it has been unloaded (the object stays referenced). */
  function AfterUnload(s: Option<Sound>): (r: Option<Sound>)
    ensures r.Some? <==> s.Some?
    ensures s.Some? ==> r.value.asset == s.value.asset && r.value.volume == s.value.volume
    ensures s.Some? ==> r.value.status == Unloaded
  {
    match s
    case None => None
    case Some(x) => Some(x.(status := Unloaded))
  }

  /** Whether every audio call a generate makes succeeds, given whether a sound was held. */
  predicate GenerateSucceeds(hadSound: bool, audio: AudioResult)
  {
    (!hadSound || audio.unloadOk) && audio.createOk && audio.volumeOk && audio.playOk
  }

  class Player {
    var selectedMode: Option<Mode>
    var loading: bool
    var error: Option<string>
    var sound: Option<Sound>
    var mixerVolumes: Volumes

    constructor ()
      ensures selectedMode == None && !loading && error == None && sound == None
      ensures mixerVolumes == InitialVolumes
      ensures forall c :: Level(mixerVolumes, c) == 1.0
    {
      selectedMode := None;
      loading := false;
      error := None;
      sound := None;
      mixerVolumes := InitialVolumes;
    }

    /** A pie control's change: sets one channel, keeps the other five. */
    method UpdateVolume(c: Channel, x: real)
      modifies this
      ensures mixerVolumes == WithVolume(old(mixerVolumes), c, x)
      ensures Level(mixerVolumes, c) == x
      ensures forall d :: d != c ==> Level(mixerVolumes, d) == Level(old(mixerVolumes), d)
      ensures selectedMode == old(selectedMode) && loading == old(loading)
      ensures error == old(error) && sound == old(sound)
    {
      mixerVolumes := WithVolume(mixerVolumes, c, x);
    }

    /** The part of generate before the first audio call. */
    method BeginGenerate(mode: Mode)
      modifies this
      ensures selectedMode == Some(mode) && loading && error == None
      ensures sound == old(sound) && mixerVolumes == old(mixerVolumes)
    {
      selectedMode := Some(mode);
      loading := true;
      error := None;
    }

    /**
     * The rest of generate: unload the held sound, create the mode's sound,
     * set its volume, keep it, play it. The first failing call skips the
     * remaining ones and records the error; loading ends either way.
     */
    method FinishGenerate(mode: Mode, audio: AudioResult)
      modifies this
      ensures !loading
      ensures selectedMode == old(selectedMode) && mixerVolumes == old(mixerVolumes)
      ensures error == if GenerateSucceeds(old(sound).Some?, audio) then old(error) else Some(GenerateErrorMessage)
      ensures old(sound).Some? && !audio.unloadOk ==> sound == old(sound)
      ensures (old(sound).None? || audio.unloadOk) && !(audio.createOk && audio.volumeOk) ==>
        sound == AfterUnload(old(sound))
      ensures (old(sound).None? || audio.unloadOk) && audio.createOk && audio.volumeOk ==>
        sound == Some(Sound(AssetFor(mode), PlaybackVolume(mixerVolumes, mode),
                            if audio.playOk then Playing else Loaded))
    {
      var failed := false;
      if sound.Some? {
        if audio.unloadOk {
          sound := AfterUnload(sound);
        } else {
          failed := true;
        }
      }
      if !failed {
        if audio.createOk && audio.volumeOk {
          var created := Sound(AssetFor(mode), PlaybackVolume(mixerVolumes, mode), Loaded);
          sound := Some(created);
          if audio.playOk {
            sound := Some(created.(status := Playing));
          } else {
            failed := true;
          }
        } else {
          failed := true;
        }
      }
      if failed {
        error := Some(GenerateErrorMessage);
      }
      loading := false;
    }

    /** A mode button: the whole generate, as one step. */
    method Generate(mode: Mode, audio: AudioResult)
      modifies this
      ensures selectedMode == Some(mode) && !loading
      ensures mixerVolumes == old(mixerVolumes)
      ensures error == if GenerateSucceeds(old(sound).Some?, audio) then None else Some(GenerateErrorMessage)
      ensures old(sound).Some? && !audio.unloadOk ==> sound == old(sound)
      ensures (old(sound).None? || audio.unloadOk) && !(audio.createOk && audio.volumeOk) ==>
        sound == AfterUnload(old(sound))
      ensures (old(sound).None? || audio.unloadOk) && audio.createOk && audio.volumeOk ==>
        sound == Some(Sound(AssetFor(mode), PlaybackVolume(mixerVolumes, mode),
                            if audio.playOk then Playing else Loaded))
    {
      BeginGenerate(mode);
      FinishGenerate(mode, audio);
    }

    /** The stop button: unloads and drops the held sound; without one, nothing happens. */
    method Stop(unloadOk: bool)
      modifies this
      ensures sound == if old(sound).Some? && unloadOk then None else old(sound)
      ensures selectedMode == old(selectedMode) && loading == old(loading)
      ensures error == old(error) && mixerVolumes == old(mixerVolumes)
    {
      if sound.Some? {
        if unloadOk {
          sound := None;
        }
      }
    }
  }

  /** A first successful generate plays the mode's asset at its channel times the master. */
  method PlayPeacefulAtHalfMaster() returns (s: Option<Sound>, e: Option<string>)
    ensures s == Some(Sound(SadAsset, 0.5, Playing)) && e == None
  {
    var p := new Player();
    p.UpdateVolume(Master, 0.5);
    p.Generate(Peaceful, AudioResult(true, true, true, true));
    AssetTable();
    s, e := p.sound, p.error;
  }
}
