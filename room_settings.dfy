/** The settings page: a form that adds a room or edits the one picked from the
    list, and a form that adds a service to the catalogue. Both forms hand their
    result to the application state and then start over from their defaults. */
module RoomSettings {
  import opened Seqs
  import opened Types
  import App

  /** The service form's fields; the id is given on submit. */
  datatype ServiceDraft = ServiceDraft(name: string, defaultPrice: int, kind: ServiceType)

  /** The room form's starting values: a twin for two with one guest included and
      a bathroom, in the first colour of the palette. Its id is never read. */
  function DefaultRoomForm(): (r: Room)
    ensures r.name == "" && r.kind == "트윈" && r.hasBathroom
    ensures 1 <= r.baseCapacity <= r.capacity
    ensures r.extraPersonPrice == 15 && r.price == 70
  {
    Room("", "", "트윈", 2, 1, 15, 70, "bg-blue-100 border-blue-300 text-blue-800", true, "", "", "")
  }

  /** The service form's starting values. */
  function DefaultServiceForm(): (s: ServiceDraft)
    ensures s.name == "" && s.defaultPrice == 10 && s.kind == Custom
  {
    ServiceDraft("", 10, Custom)
  }

  /** What a room submit hands on: the form's fields under the id being edited, or
      under `r-<stamp>` when no room is being edited (`""` is no room). */
  function SubmittedRoom(form: Room, editingRoomId: string, stamp: string): (r: Room)
    ensures editingRoomId != "" ==> r.id == editingRoomId
    ensures editingRoomId == "" ==> r.id == "r-" + stamp && |r.id| >= 2 && r.id[..2] == "r-"
    ensures r.(id := form.id) == form
  {
    assert ("r-" + stamp)[..2] == "r-";
    form.(id := if editingRoomId != "" then editingRoomId else "r-" + stamp)
  }

  /** The new catalogue entry, with id `s-<stamp>`. */
  function NewService(form: ServiceDraft, stamp: string): (s: ServiceDefinition)
    ensures s.id == "s-" + stamp
    ensures s.name == form.name && s.defaultPrice == form.defaultPrice && s.kind == form.kind
  {
    ServiceDefinition("s-" + stamp, form.name, form.defaultPrice, form.kind)
  }

  /** `services.filter(s => s.id !== id)`. */
  function RemoveService(services: seq<ServiceDefinition>, id: string): (r: seq<ServiceDefinition>)
    ensures |r| <= |services|
    ensures forall i :: 0 <= i < |r| ==> r[i].id != id && r[i] in services
    ensures forall i :: 0 <= i < |services| && services[i].id != id ==> services[i] in r
  {
    Filter(services, (s: ServiceDefinition) => s.id != id)
  }

  predicate UniqueRoomIds(rooms: seq<Room>)
  {
    forall i, j :: 0 <= i < j < |rooms| ==> rooms[i].id != rooms[j].id
  }

  /** With unique ids, saving a listed room without changing it leaves the list as it was. */
  lemma SaveUnchangedRoom(rooms: seq<Room>, k: nat)
    requires UniqueRoomIds(rooms) && k < |rooms|
    ensures App.ReplaceRoom(rooms, rooms[k]) == rooms
  {
    App.ReplaceRoomSpec(rooms, rooms[k]);
    var r := App.ReplaceRoom(rooms, rooms[k]);
    forall i | 0 <= i < |rooms|
      ensures r[i] == rooms[i]
    {
      if i < k {
        assert rooms[i].id != rooms[k].id;
      } else if k < i {
        assert rooms[k].id != rooms[i].id;
      }
    }
  }

  class RoomSettingsForm {
    /** The room being edited; `""` when the form adds a new one. */
    var editingRoomId: string
    var roomForm: Room
    var serviceForm: ServiceDraft

    constructor ()
      ensures editingRoomId == "" && roomForm == DefaultRoomForm() && serviceForm == DefaultServiceForm()
    {
      editingRoomId := "";
      roomForm := DefaultRoomForm();
      serviceForm := DefaultServiceForm();
    }

    /** `resetRoomForm`, also the cancel button. */
    method ResetRoomForm()
      modifies this
      ensures editingRoomId == "" && roomForm == DefaultRoomForm()
      ensures serviceForm == old(serviceForm)
    {
      roomForm := DefaultRoomForm();
      editingRoomId := "";
    }

    /** The edit button of a listed room: the form takes the room's fields. */
    method StartEditRoom(room: Room)
      modifies this
      ensures roomForm == room && editingRoomId == room.id
      ensures serviceForm == old(serviceForm)
    {
      roomForm := room;
      editingRoomId := room.id;
    }

    /** An input of the room form: it replaces the fields it edits. */
    method EditRoomForm(updated: Room)
      modifies this
      ensures roomForm == updated
      ensures editingRoomId == old(editingRoomId) && serviceForm == old(serviceForm)
    {
      roomForm := updated;
    }

    /** `handleRoomSubmit`: nothing happens without a name; otherwise the room is
        updated (when one is being edited) or added, and the form is reset. */
    method HandleRoomSubmit(app: App.AppState, stamp: string)
      modifies this, app
      ensures old(roomForm.name) == "" ==>
        app.rooms == old(app.rooms) && roomForm == old(roomForm) && editingRoomId == old(editingRoomId)
      ensures old(roomForm.name) != "" && old(editingRoomId) != "" ==>
        app.rooms == App.ReplaceRoom(old(app.rooms), SubmittedRoom(old(roomForm), old(editingRoomId), stamp))
      ensures old(roomForm.name) != "" && old(editingRoomId) == "" ==>
        app.rooms == old(app.rooms) + [SubmittedRoom(old(roomForm), "", stamp)]
      ensures old(roomForm.name) != "" ==> roomForm == DefaultRoomForm() && editingRoomId == ""
      ensures serviceForm == old(serviceForm)
      ensures app.services == old(app.services) && app.bookings == old(app.bookings)
      ensures app.isModalOpen == old(app.isModalOpen) && app.editingBooking == old(app.editingBooking)
    {
      if roomForm.name == "" {
        return;
      }
      var room := SubmittedRoom(roomForm, editingRoomId, stamp);
      if editingRoomId != "" {
        app.HandleUpdateRoom(room);
      } else {
        app.HandleAddRoom(room);
      }
      ResetRoomForm();
    }

    /** An input of the service form. */
    method EditServiceForm(updated: ServiceDraft)
      modifies this
      ensures serviceForm == updated
      ensures roomForm == old(roomForm) && editingRoomId == old(editingRoomId)
    {
      serviceForm := updated;
    }

    /** `handleServiceSubmit`: nothing happens without a name; otherwise the new
        service is appended to the catalogue and the form is reset. */
    method HandleServiceSubmit(app: App.AppState, stamp: string)
      modifies this, app
      ensures old(serviceForm.name) == "" ==> app.services == old(app.services) && serviceForm == old(serviceForm)
      ensures old(serviceForm.name) != "" ==>
        app.services == old(app.services) + [NewService(old(serviceForm), stamp)] && serviceForm == DefaultServiceForm()
      ensures roomForm == old(roomForm) && editingRoomId == old(editingRoomId)
      ensures app.rooms == old(app.rooms) && app.bookings == old(app.bookings)
      ensures app.isModalOpen == old(app.isModalOpen) && app.editingBooking == old(app.editingBooking)
    {
      if serviceForm.name == "" {
        return;
      }
      app.HandleUpdateServices(app.services + [NewService(serviceForm, stamp)]);
      serviceForm := DefaultServiceForm();
    }

    /** `handleDeleteService`. */
    method HandleDeleteService(app: App.AppState, id: string)
      modifies app
      ensures app.services == RemoveService(old(app.services), id)
      ensures app.rooms == old(app.rooms) && app.bookings == old(app.bookings)
      ensures app.isModalOpen == old(app.isModalOpen) && app.editingBooking == old(app.editingBooking)
    {
      app.HandleUpdateServices(RemoveService(app.services, id));
    }

    /** A listed room's delete button, answered by the confirmation dialog. The form
        keeps editing the room even when it is the one deleted. */
    method DeleteRoom(app: App.AppState, roomId: string, confirmed: bool)
      modifies app
      ensures app.rooms == if confirmed then App.RemoveRoom(old(app.rooms), roomId) else old(app.rooms)
      ensures app.services == old(app.services) && app.bookings == old(app.bookings)
      ensures app.isModalOpen == old(app.isModalOpen) && app.editingBooking == old(app.editingBooking)
    {
      app.HandleDeleteRoom(roomId, confirmed);
    }
  }

  /** Submitting an edit of a room that has since been deleted changes no room:
      the edits are dropped. */
  lemma EditOfDeletedRoomIsLost(rooms: seq<Room>, form: Room, editingRoomId: string, stamp: string)
    requires editingRoomId != ""
    ensures App.ReplaceRoom(App.RemoveRoom(rooms, editingRoomId), SubmittedRoom(form, editingRoomId, stamp))
         == App.RemoveRoom(rooms, editingRoomId)
  {
    var kept := App.RemoveRoom(rooms, editingRoomId);
    App.ReplaceRoomSpec(kept, SubmittedRoom(form, editingRoomId, stamp));
  }
}
