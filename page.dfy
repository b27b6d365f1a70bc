/** The Facebook page a tab application runs in, as a signed request describes it. */
module FacebookPage {
  import opened Facebook

  class Page {
    var id: string
    var admin: Option<bool>
    var liked: Option<bool>
    var access: Option<Access>

    /** Only the id is set; admin, liked and access stay unset. */
    constructor (id: string)
      ensures GetId() == id
      ensures GetAdmin() == None && GetLiked() == None && GetAccess() == None
    {
      this.id := id;
      admin := None;
      liked := None;
      access := None;
    }

    function GetId(): string
      reads this
    {
      id
    }

    function GetAdmin(): Option<bool>
      reads this
    {
      admin
    }

    function GetLiked(): Option<bool>
      reads this
    {
      liked
    }

    function GetAccess(): Option<Access>
      reads this
    {
      access
    }

    method SetId(id: string)
      modifies this`id
      ensures GetId() == id
      ensures GetAdmin() == old(GetAdmin()) && GetLiked() == old(GetLiked()) && GetAccess() == old(GetAccess())
    {
      this.id := id;
    }

    method SetAdmin(admin: bool)
      modifies this`admin
      ensures GetAdmin() == Some(admin)
      ensures GetId() == old(GetId()) && GetLiked() == old(GetLiked()) && GetAccess() == old(GetAccess())
    {
      this.admin := Some(admin);
    }

    method SetLiked(liked: bool)
      modifies this`liked
      ensures GetLiked() == Some(liked)
      ensures GetId() == old(GetId()) && GetAdmin() == old(GetAdmin()) && GetAccess() == old(GetAccess())
    {
      this.liked := Some(liked);
    }

    method SetAccess(access: Access)
      modifies this`access
      ensures GetAccess() == Some(access)
      ensures GetId() == old(GetId()) && GetAdmin() == old(GetAdmin()) && GetLiked() == old(GetLiked())
    {
      this.access := Some(access);
    }
  }
}
